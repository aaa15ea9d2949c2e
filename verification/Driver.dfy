/** The daemon's own tables, as its methods update them in place. */
module Driver {
  import opened Registry
  import opened Keys

  /** The cancel context of a request. */
  class Context {
    var done: bool
    constructor ()
      ensures !done
    {
      done := false;
    }
  }

  class Tracker {
    var contexts: map<Key, Context>
    var completions: set<Key>

    ghost function View(): (t: Tables)
      reads this, contexts.Values
    {
      Tables(contexts.Keys, (set k | k in contexts && contexts[k].done), completions)
    }

    /** No two requests share a context. */
    ghost predicate Valid()
      reads this
    {
      forall j, k :: j in contexts && k in contexts && contexts[j] == contexts[k] ==> j == k
    }

    constructor ()
      ensures Valid() && View() == Tables({}, {}, {})
    {
      contexts, completions := map[], {};
    }

    method RecordRequest(ns: string, name: string)
      requires Valid()
      modifies this
      ensures Valid() && View() == Recorded(old(View()), DmKey(ns, name))
      ensures var key := DmKey(ns, name);
        && contexts == old(contexts)[key := contexts[key]] && fresh(contexts[key]) && !contexts[key].done
        && completions == old(completions)
    {
      var record := new Context();
      contexts := contexts[DmKey(ns, name) := record];
    }

    method DeleteRequest(ns: string, name: string)
      requires Valid()
      modifies this
      ensures Valid() && View() == Dropped(old(View()), DmKey(ns, name))
      ensures contexts == old(contexts) - {DmKey(ns, name)} && completions == old(completions)
    {
      contexts := contexts - {DmKey(ns, name)};
    }

    method NotifyCompletion(ns: string, name: string)
      requires Valid()
      modifies this
      ensures Valid() && View() == Noted(old(View()), DmKey(ns, name))
      ensures contexts == old(contexts) && completions == old(completions) + {DmKey(ns, name)}
    {
      completions := completions + {DmKey(ns, name)};
    }

    method DeleteCompletionByName(name: Key)
      requires Valid()
      modifies this
      ensures Valid() && View() == Reaped(old(View()), name)
      ensures contexts == old(contexts) && completions == old(completions) - {name}
    {
      completions := completions - {name};
    }

    /** The hand-off of a request that is over: its record goes before its completion is noted. */
    method ContextDelete(ns: string, name: string)
      requires Valid()
      modifies this
      ensures Valid() && View() == Noted(Dropped(old(View()), DmKey(ns, name)), DmKey(ns, name))
      ensures contexts == old(contexts) - {DmKey(ns, name)} && completions == old(completions) + {DmKey(ns, name)}
      ensures old(View().contexts !! View().completions) ==> View().contexts !! View().completions
    {
      DeleteRequest(ns, name);
      NotifyCompletion(ns, name);
    }

    /** Cancels a recorded request and no other; one that is over needs no cancelling. */
    method CancelRequest(name: Key) returns (found: bool)
      requires Valid()
      modifies contexts.Values
      ensures Valid() && View() == Stopped(old(View()), name)
      ensures old(name in contexts) ==> name in contexts && contexts[name].done
      ensures forall k :: k in contexts && k != name ==> contexts[k].done == old(contexts[k].done)
      ensures contexts == old(contexts) && completions == old(completions)
      ensures found <==> name in old(contexts) || name in old(completions)
    {
      if name !in contexts {
        return name in completions;
      }
      contexts[name].done := true;
      return true;
    }
  }
}
