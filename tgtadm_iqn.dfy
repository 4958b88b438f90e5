/**
 * `unique_iqn` (tgtadm.py:149-154): test target names
 * `iqn.2001-04.com.example:<n>` from a counter that starts at 1 and is
 * incremented before each use. The module-level counter is an object here, so
 * each caller holds its own sequence.
 */
module TgtadmIqn {
  import opened Wrappers
  import opened Text

  const IqnPrefix := "iqn.2001-04.com.example"

  /** `"%s:%d" % (prefix, n)` */
  function IqnFor(n: int): string {
    IqnPrefix + ":" + IntToString(n)
  }

  /** Different counter values give different names. */
  lemma IqnForInjective(m: int, n: int)
    requires IqnFor(m) == IqnFor(n)
    ensures m == n
  {
    StripPrefixConcat(IqnPrefix + ":", IntToString(m));
    StripPrefixConcat(IqnPrefix + ":", IntToString(n));
    assert IqnFor(m) == (IqnPrefix + ":") + IntToString(m);
    assert IqnFor(n) == (IqnPrefix + ":") + IntToString(n);
  }

  class IqnCounter {
    /** `iqn_counter` */
    var counter: int
    /** The names handed out so far. */
    ghost var issued: set<string>

    ghost predicate Valid()
      reads this
    {
      counter >= 1 && issued == set n | 1 < n <= counter :: IqnFor(n)
    }

    constructor ()
      ensures Valid() && counter == 1 && issued == {}
    {
      counter := 1;
      issued := {};
    }

    /** `unique_iqn()`: the next name, never one handed out before. */
    method UniqueIqn() returns (iqn: string)
      requires Valid()
      modifies this
      ensures Valid()
      ensures counter == old(counter) + 1 && iqn == IqnFor(counter)
      ensures iqn !in old(issued)
      ensures issued == old(issued) + {iqn}
    {
      counter := counter + 1;
      iqn := IqnFor(counter);
      forall n | 1 < n <= counter - 1
        ensures IqnFor(n) != iqn
      {
        if IqnFor(n) == iqn {
          IqnForInjective(n, counter);
        }
      }
      issued := issued + {iqn};
      assert issued == set n | 1 < n <= counter :: IqnFor(n);
    }
  }
}
