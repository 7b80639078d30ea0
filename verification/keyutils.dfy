/**
 * Frequency-key utilities: `common_keys` (a sorted key intersection) and
 * `convert_freq` (restriction of a spectrum to an allowed list of keys).
 */
module KeyUtils {

  /** Sorted ascending and free of duplicates. */
  predicate StrictlyAscending(s: seq<real>)
  {
    forall i, j :: 0 <= i < j < |s| ==> s[i] < s[j]
  }

  /** Comparing neighbours is enough to establish strict ascent. */
  lemma {:induction false} AdjacentAscending(s: seq<real>)
    requires forall i :: 0 <= i < |s| - 1 ==> s[i] < s[i + 1]
    ensures StrictlyAscending(s)
  {
    if |s| > 1 {
      var t := s[1..];
      assert forall i :: 0 <= i < |t| - 1 ==> t[i] < t[i + 1] by {
        forall i | 0 <= i < |t| - 1 ensures t[i] < t[i + 1] {
          assert t[i] == s[i + 1] && t[i + 1] == s[i + 2];
        }
      }
      AdjacentAscending(t);
      forall i, j | 0 <= i < j < |s| ensures s[i] < s[j] {
        if i > 0 {
          assert t[i - 1] < t[j - 1];
        } else if j > 1 {
          assert s[0] < s[1] && t[0] < t[j - 1];
        }
      }
    }
  }

  /**
   * Two strictly ascending sequences holding the same elements are equal:
   * a sorted key list is determined by its key set alone.
   */
  lemma {:induction false} AscendingUnique(a: seq<real>, b: seq<real>)
    requires StrictlyAscending(a) && StrictlyAscending(b)
    requires forall x :: x in a <==> x in b
    ensures a == b
  {
    if a == [] || b == [] {
      HeadMember(a);
      HeadMember(b);
    } else {
      assert a[0] in b && b[0] in a;
      var i :| 0 <= i < |a| && a[i] == b[0];
      var j :| 0 <= j < |b| && b[j] == a[0];
      assert a[0] == b[0];
      forall x ensures x in a[1..] <==> x in b[1..] {
        AscendingTail(a, x);
        AscendingTail(b, x);
      }
      AscendingUnique(a[1..], b[1..]);
    }
  }

  lemma HeadMember(s: seq<real>)
    ensures s == [] || s[0] in s
  {
  }

  /** The tail of a strictly ascending sequence holds all elements but the head. */
  lemma AscendingTail(s: seq<real>, x: real)
    requires StrictlyAscending(s) && s != []
    ensures x in s[1..] <==> x in s && x != s[0]
  {
    if x in s && x != s[0] {
      var i :| 0 <= i < |s| && s[i] == x;
      assert s[1..][i - 1] == x;
    }
    if x in s[1..] {
      var i :| 0 <= i < |s| - 1 && s[1..][i] == x;
      assert s[0] < s[i + 1];
    }
  }

  /** A non-empty set has a member one can pick. */
  lemma NonEmptyHasMember(s: set<real>)
    requires s != {}
    ensures exists k :: k in s
  {
    if forall z :: z !in s {
      assert false;
    }
  }

  /** Every non-empty finite set of frequencies has a least element. */
  lemma {:induction false} MinimumExists(s: set<real>)
    requires s != {}
    ensures exists m :: m in s && forall x :: x in s ==> m <= x
  {
    NonEmptyHasMember(s);
    var y :| y in s;
    var rest := s - {y};
    assert s == rest + {y};
    if rest == {} {
      assert s == {y};
      assert forall x :: x in s ==> y <= x;
    } else {
      MinimumExists(rest);
      var m :| m in rest && forall x :: x in rest ==> m <= x;
      MinimumOfInsert(rest, m, y);
    }
  }

  lemma MinimumOfInsert(s: set<real>, m: real, y: real)
    requires m in s && forall x :: x in s ==> m <= x
    ensures var least := if y < m then y else m;
      least in s + {y} && forall x :: x in s + {y} ==> least <= x
  {
  }

  /** Python's `sorted` applied to a set of frequencies. */
  function Sorted(s: set<real>): (r: seq<real>)
    ensures StrictlyAscending(r)
    ensures forall x :: x in r <==> x in s
    decreases s
  {
    if s == {} then []
    else
      MinimumExists(s);
      var m :| m in s && forall x :: x in s ==> m <= x;
      [m] + Sorted(s - {m})
  }

  /** `common_keys`: the keys present in both spectra, ascending, each once. */
  function CommonKeys(d1: map<real, real>, d2: map<real, real>): (r: seq<real>)
    ensures StrictlyAscending(r)
    ensures forall k :: k in r <==> k in d1 && k in d2
  {
    Sorted(d1.Keys * d2.Keys)
  }

  /** `common_keys` does not depend on the order of its arguments. */
  lemma CommonKeysSymmetric(d1: map<real, real>, d2: map<real, real>)
    ensures CommonKeys(d1, d2) == CommonKeys(d2, d1)
  {
    AscendingUnique(CommonKeys(d1, d2), CommonKeys(d2, d1));
  }

  /** `convert_freq`: a fresh spectrum holding the entries of `dict1` whose key is allowed. */
  function ConvertFreq(dict1: map<real, real>, allowed: seq<real>): (r: map<real, real>)
    ensures forall k :: k in r <==> k in dict1 && k in allowed
    ensures forall k :: k in r ==> r[k] == dict1[k]
  {
    map k | k in dict1 && k in allowed :: dict1[k]
  }

  /** Restricting twice to the same keys is restricting once. */
  lemma ConvertFreqIdempotent(dict1: map<real, real>, allowed: seq<real>)
    ensures ConvertFreq(ConvertFreq(dict1, allowed), allowed) == ConvertFreq(dict1, allowed)
  {
  }

  /** Restricting a spectrum to its common keys with another leaves exactly the shared frequencies. */
  lemma AlignedKeys(d1: map<real, real>, d2: map<real, real>)
    ensures ConvertFreq(d1, CommonKeys(d1, d2)).Keys == d1.Keys * d2.Keys
    ensures ConvertFreq(d2, CommonKeys(d1, d2)).Keys == d1.Keys * d2.Keys
  {
  }
}
