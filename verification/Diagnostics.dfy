/** Why bars did not trade: a count per reason and the reason that blocked most often. */
module Diagnostics {
  import Text

  datatype Diagnostics = Diagnostics(
    observed: nat, setups: nat, biasRejected: nat, blocked: map<string, nat>, top: string, topCount: nat)

  const EMPTY := Diagnostics(0, 0, 0, map[], "", 0)

  // ---------------------------------------------------------------------------
  // Order on reasons
  // ---------------------------------------------------------------------------

  predicate Less(a: string, b: string) {
    b != "" && (a == "" || a[0] < b[0] || (a[0] == b[0] && Less(a[1..], b[1..])))
  }

  lemma {:induction false} LessIsTotal(a: string, b: string)
    ensures Less(a, b) || Less(b, a) || a == b
    ensures !(Less(a, b) && Less(b, a)) && !Less(a, a)
  {
    if a != "" && b != "" {
      LessIsTotal(a[1..], b[1..]);
      LessIsTotal(a[1..], a[1..]);
      if a[0] == b[0] && a[1..] == b[1..] {
        assert a == [a[0]] + a[1..] && b == [b[0]] + b[1..];
      }
    } else if a != "" {
      LessIsTotal(a[1..], a[1..]);
    }
  }

  lemma {:induction false} LessIsTransitive(a: string, b: string, c: string)
    requires Less(a, b) && Less(b, c)
    ensures Less(a, c)
  {
    if a != "" && a[0] == b[0] == c[0] {
      LessIsTransitive(a[1..], b[1..], c[1..]);
    }
  }

  // ---------------------------------------------------------------------------
  // Recording
  // ---------------------------------------------------------------------------

  function Count(blocked: map<string, nat>, reason: string): nat {
    if reason in blocked then blocked[reason] else 0
  }

  function Named(reason: string): string {
    var trimmed := Text.TrimSpace(reason);
    if trimmed == "" then "no actionable setup" else trimmed
  }

  /** Puts a reason on top if it is now more frequent, or as frequent and earlier in order. */
  function Promote(d: Diagnostics, reason: string, count: nat): Diagnostics {
    if count > d.topCount || (count == d.topCount && (d.top == "" || Less(reason, d.top)))
    then d.(top := reason, topCount := count) else d
  }

  function RecordBlock(d: Diagnostics, reason: string): Diagnostics {
    var name := Named(reason);
    var count := Count(d.blocked, name) + 1;
    Promote(d.(blocked := d.blocked[name := count]), name, count)
  }

  /** The top blocker is the most frequent reason, and of those the least; with none recorded it is empty. */
  ghost predicate TopIsRight(d: Diagnostics) {
    && (forall r :: r in d.blocked ==> r != "" && Named(r) == r && d.blocked[r] > 0)
    && (if d.blocked == map[] then d.top == "" && d.topCount == 0
        else d.top in d.blocked && d.blocked[d.top] == d.topCount
             && forall r :: r in d.blocked ==>
                  d.blocked[r] < d.topCount || (d.blocked[r] == d.topCount && (r == d.top || Less(d.top, r))))
  }

  lemma NamedIsStable(reason: string)
    ensures Named(reason) != "" && Named(Named(reason)) == Named(reason)
  {
    Text.TrimIsIdempotent(reason);
    var fallback := "no actionable setup";
    assert Text.TrimLeft(fallback) == fallback && Text.TrimRight(fallback) == fallback;
  }

  lemma RecordKeepsTop(d: Diagnostics, reason: string)
    requires TopIsRight(d)
    ensures TopIsRight(RecordBlock(d, reason))
  {
    hide Less, Named;
    NamedIsStable(reason);
    var e, name := RecordBlock(d, reason), Named(reason);
    forall r | r in e.blocked
      ensures e.blocked[r] < e.topCount || (e.blocked[r] == e.topCount && (r == e.top || Less(e.top, r)))
    {
      if r != name {
        assert r in d.blocked && e.blocked[r] == d.blocked[r];
        LessIsTotal(d.top, name);
        if Less(name, d.top) && Less(d.top, r) {
          LessIsTransitive(name, d.top, r);
        }
      } else {
        LessIsTotal(d.top, name);
      }
    }
  }

  /** Two records with the same counts name the same top blocker, however they were built. */
  lemma TopIsUnique(d: Diagnostics, e: Diagnostics)
    requires TopIsRight(d) && TopIsRight(e) && d.blocked == e.blocked
    ensures d.top == e.top && d.topCount == e.topCount
  {
    if d.blocked != map[] {
      LessIsTotal(d.top, e.top);
    }
  }

  /** A last look at all reasons, in any order, changes nothing. */
  function Finalize(d: Diagnostics, reasons: seq<string>): Diagnostics
    decreases |reasons|
  {
    if reasons == [] then d
    else Finalize(Promote(d, reasons[0], Count(d.blocked, reasons[0])), reasons[1..])
  }

  lemma {:induction false} FinalizeChangesNothing(d: Diagnostics, reasons: seq<string>)
    requires TopIsRight(d) && forall i :: 0 <= i < |reasons| ==> reasons[i] in d.blocked
    ensures Finalize(d, reasons) == d
    decreases |reasons|
  {
    if reasons != [] {
      var r := reasons[0];
      assert r in d.blocked;
      LessIsTotal(r, d.top);
      LessIsTotal(r, r);
      FinalizeChangesNothing(d, reasons[1..]);
    }
  }

  // ---------------------------------------------------------------------------
  // Folding counts, in any order
  // ---------------------------------------------------------------------------

  function RecordTimes(d: Diagnostics, reason: string, times: nat): Diagnostics {
    if times == 0 then d else RecordBlock(RecordTimes(d, reason, times - 1), reason)
  }

  lemma {:induction false} TimesAdds(d: Diagnostics, reason: string, times: nat)
    requires TopIsRight(d) && Named(reason) == reason
    ensures var e := RecordTimes(d, reason, times);
            && TopIsRight(e)
            && (forall r :: Count(e.blocked, r) == Count(d.blocked, r) + (if r == reason then times else 0))
            && (e.observed, e.setups, e.biasRejected) == (d.observed, d.setups, d.biasRejected)
  {
    hide Less, Named, TopIsRight;
    if times > 0 {
      TimesAdds(d, reason, times - 1);
      RecordKeepsTop(RecordTimes(d, reason, times - 1), reason);
    }
  }

  /** Adds the counts of one map, reason by reason, in the order the keys come. */
  function Merge(d: Diagnostics, counts: map<string, nat>, keys: seq<string>): Diagnostics
    requires forall i :: 0 <= i < |keys| ==> keys[i] in counts
    decreases |keys|
  {
    if keys == [] then d else Merge(RecordTimes(d, keys[0], counts[keys[0]]), counts, keys[1..])
  }

  /** Some order of the keys of a map, each once. */
  ghost predicate IsOrder(counts: map<string, nat>, keys: seq<string>) {
    && (forall i :: 0 <= i < |keys| ==> keys[i] in counts)
    && (forall k :: k in counts ==> k in keys)
    && (forall i, j :: 0 <= i < j < |keys| ==> keys[i] != keys[j])
  }

  lemma {:induction false} MergeAdds(d: Diagnostics, counts: map<string, nat>, keys: seq<string>)
    requires TopIsRight(d) && (forall i :: 0 <= i < |keys| ==> keys[i] in counts)
    requires forall i, j :: 0 <= i < j < |keys| ==> keys[i] != keys[j]
    requires forall k :: k in counts ==> Named(k) == k
    ensures var e := Merge(d, counts, keys);
            && TopIsRight(e)
            && (forall r :: Count(e.blocked, r) == Count(d.blocked, r) + (if r in keys then counts[r] else 0))
            && (e.observed, e.setups, e.biasRejected) == (d.observed, d.setups, d.biasRejected)
    decreases |keys|
  {
    hide TopIsRight, Named, RecordTimes;
    if keys != [] {
      var k, rest := keys[0], keys[1..];
      assert k in counts;
      TimesAdds(d, k, counts[k]);
      var u := RecordTimes(d, k, counts[k]);
      MergeAdds(u, counts, rest);
      var e := Merge(u, counts, rest);
      forall r ensures Count(e.blocked, r) == Count(d.blocked, r) + (if r in keys then counts[r] else 0) {
        assert r in keys <==> r == k || r in rest;
        assert k !in rest;
      }
    }
  }

  lemma SameCounts(d: Diagnostics, e: Diagnostics)
    requires TopIsRight(d) && TopIsRight(e) && forall r :: Count(d.blocked, r) == Count(e.blocked, r)
    ensures d.blocked == e.blocked && d.top == e.top && d.topCount == e.topCount
  {
    hide Less;
    forall r ensures r in d.blocked <==> r in e.blocked {
      assert Count(d.blocked, r) == Count(e.blocked, r);
    }
    forall r | r in d.blocked ensures d.blocked[r] == e.blocked[r] {
      assert Count(d.blocked, r) == Count(e.blocked, r);
    }
    assert d.blocked == e.blocked;
    TopIsUnique(d, e);
  }

  /** The order in which a map's keys are visited does not matter. */
  lemma MergeIgnoresOrder(d: Diagnostics, counts: map<string, nat>, keys: seq<string>, others: seq<string>)
    requires TopIsRight(d) && IsOrder(counts, keys) && IsOrder(counts, others)
    requires forall k :: k in counts ==> Named(k) == k
    ensures Merge(d, counts, keys) == Merge(d, counts, others)
  {
    hide TopIsRight, Named, Merge;
    MergeAdds(d, counts, keys);
    MergeAdds(d, counts, others);
    var a, b := Merge(d, counts, keys), Merge(d, counts, others);
    forall r ensures Count(a.blocked, r) == Count(b.blocked, r) {
      assert r in keys <==> r in others;
    }
    SameCounts(a, b);
  }
}
