/** The batch of a landing run: the entries still in it, and the outcomes of those that left it. */
module LandingBatch {
  import opened Options
  import opened Git
  import opened Queue
  import opened LandingCheckout

  type Outcomes = map<string, Outcome>

  predicate AllBounced(outcomes: Outcomes) {
    forall id :: id in outcomes ==> outcomes[id].Bounced?
  }

  function BounceAll(outcomes: Outcomes, entries: seq<Entry>, reason: Reason): (r: Outcomes)
    ensures AllBounced(outcomes) ==> AllBounced(r)
    ensures forall id :: id in r && r[id] != Bounced(reason) ==> id in outcomes && r[id] == outcomes[id]
    ensures forall id :: id in outcomes ==> id in r
    ensures forall e :: e in entries ==> e.id in r && r[e.id] == Bounced(reason)
  {
    if entries == [] then outcomes
    else BounceAll(outcomes, Init(entries), reason)[Last(entries).id := Bounced(reason)]
  }

  lemma {:induction false} BounceOnly(outcomes: Outcomes, entries: seq<Entry>, reason: Reason, id: string)
    requires id !in outcomes && forall k :: 0 <= k < |entries| ==> entries[k].id != id
    ensures id !in BounceAll(outcomes, entries, reason)
  {
    if entries != [] { BounceOnly(outcomes, Init(entries), reason, id); }
  }

  lemma {:induction false} BounceElse(outcomes: Outcomes, entries: seq<Entry>, reason: Reason, id: string)
    requires id in outcomes && forall k :: 0 <= k < |entries| ==> entries[k].id != id
    ensures BounceAll(outcomes, entries, reason)[id] == outcomes[id]
  {
    if entries != [] { BounceElse(outcomes, Init(entries), reason, id); }
  }

  /** An entry is either still in the batch, without an outcome, or out of it and bounced. */
  predicate Fated(outcomes: Outcomes, remaining: seq<Entry>, e: Entry) {
    if e in remaining then e.id !in outcomes else e.id in outcomes && outcomes[e.id].Bounced?
  }

  /** The batch so far: some of the claimed entries in queue order, and an outcome for every other one. */
  predicate Batch(entries: seq<Entry>, outcomes: Outcomes, remaining: seq<Entry>) {
    && IsSub(remaining, entries) && DistinctIds(remaining) && AllBounced(outcomes)
    && forall k :: 0 <= k < |entries| ==> Fated(outcomes, remaining, entries[k])
  }

  function WithoutEntry(entries: seq<Entry>, id: string): (r: seq<Entry>)
    ensures |r| <= |entries|
  {
    if entries == [] then []
    else if Last(entries).id == id then WithoutEntry(Init(entries), id)
    else WithoutEntry(Init(entries), id) + [Last(entries)]
  }

  lemma {:induction false} WithoutEntrySub(entries: seq<Entry>, id: string)
    ensures IsSub(WithoutEntry(entries, id), entries)
  {
    if entries != [] {
      WithoutEntrySub(Init(entries), id);
      if Last(entries).id != id { assert Init(WithoutEntry(entries, id)) == WithoutEntry(Init(entries), id); }
    }
  }

  lemma {:induction false} WithoutEntryMember(entries: seq<Entry>, id: string, e: Entry)
    ensures e in WithoutEntry(entries, id) <==> e in entries && e.id != id
  {
    if entries != [] {
      WithoutEntryMember(Init(entries), id, e);
      assert entries == Init(entries) + [Last(entries)];
    }
  }

  lemma WithoutEntryFacts(entries: seq<Entry>, id: string)
    ensures IsSub(WithoutEntry(entries, id), entries)
    ensures forall e :: e in WithoutEntry(entries, id) <==> e in entries && e.id != id
  {
    WithoutEntrySub(entries, id);
    forall e ensures e in WithoutEntry(entries, id) <==> e in entries && e.id != id {
      WithoutEntryMember(entries, id, e);
    }
  }

  lemma {:induction false} SubDistinct(a: seq<Entry>, b: seq<Entry>)
    requires IsSub(a, b) && DistinctIds(b)
    ensures DistinctIds(a) && |a| <= |b| && forall e :: e in a ==> e in b
  {
    if a != [] {
      assert DistinctIds(Init(b)) && b == Init(b) + [Last(b)] && a == Init(a) + [Last(a)];
      if Last(a) == Last(b) && IsSub(Init(a), Init(b)) {
        SubDistinct(Init(a), Init(b));
        forall i | 0 <= i < |Init(a)| ensures a[i].id != Last(a).id {
          assert Init(a)[i] in Init(b);
        }
      } else {
        SubDistinct(a, Init(b));
      }
    }
  }

  /** In a shuffle of distinct entries nothing comes from both sides. */
  lemma {:induction false} MergeApart(a: seq<Entry>, b: seq<Entry>, c: seq<Entry>)
    requires IsMerge(a, b, c) && DistinctIds(c)
    ensures forall x, y :: x in a && y in b ==> x.id != y.id
  {
    if c != [] {
      assert DistinctIds(Init(c));
      assert forall e :: e in Init(c) ==> e.id != Last(c).id;
      if a != [] && Last(a) == Last(c) && IsMerge(Init(a), b, Init(c)) {
        assert a == Init(a) + [Last(a)];
        MergeApart(Init(a), b, Init(c));
        MergeFacts(Init(a), b, Init(c));
      } else {
        assert b == Init(b) + [Last(b)];
        MergeApart(a, Init(b), Init(c));
        MergeFacts(a, Init(b), Init(c));
      }
    }
  }

  /** Bouncing the entries that conflict leaves a batch of those that are stacked. */
  lemma BatchAfterConflicts(entries: seq<Entry>, outcomes: Outcomes, remaining: seq<Entry>,
                            conflicts: seq<Entry>, stacked: seq<Entry>, reason: Reason)
    requires DistinctIds(entries) && Batch(entries, outcomes, remaining) && IsMerge(conflicts, stacked, remaining)
    ensures Batch(entries, BounceAll(outcomes, conflicts, reason), stacked)
  {
    MergeFacts(conflicts, stacked, remaining);
    SubTransitive(stacked, remaining, entries);
    SubDistinct(stacked, entries);
    MergeApart(conflicts, stacked, remaining);
    var after := BounceAll(outcomes, conflicts, reason);
    forall k | 0 <= k < |entries| ensures Fated(after, stacked, entries[k]) {
      var e := entries[k];
      assert Fated(outcomes, remaining, e);
      if e in stacked { BounceOnly(outcomes, conflicts, reason, e.id); }
    }
  }

  /** Bouncing one entry of the batch leaves a smaller batch. */
  lemma BatchAfterBounce(entries: seq<Entry>, outcomes: Outcomes, remaining: seq<Entry>, e: Entry, reason: Reason)
    requires DistinctIds(entries) && Batch(entries, outcomes, remaining) && e in remaining
    ensures Batch(entries, outcomes[e.id := Bounced(reason)], WithoutEntry(remaining, e.id))
    ensures |WithoutEntry(remaining, e.id)| < |remaining|
  {
    var left := WithoutEntry(remaining, e.id);
    WithoutEntryFacts(remaining, e.id);
    SubTransitive(left, remaining, entries);
    SubDistinct(remaining, entries);
    SubDistinct(left, entries);
    SubDistinct(left, remaining);
    assert left != remaining;
    SubSameLength(left, remaining);
    forall k | 0 <= k < |entries| ensures Fated(outcomes[e.id := Bounced(reason)], left, entries[k]) {
      assert Fated(outcomes, remaining, entries[k]);
    }
  }

  lemma {:induction false} SubSameLength(a: seq<Entry>, b: seq<Entry>)
    requires IsSub(a, b)
    ensures |a| < |b| || a == b
    decreases |b|
  {
    if a != [] {
      if Last(a) == Last(b) && IsSub(Init(a), Init(b)) {
        SubSameLength(Init(a), Init(b));
        assert a == Init(a) + [Last(a)] && b == Init(b) + [Last(b)];
      } else {
        SubSameLength(a, Init(b));
      }
    }
  }

  // ------------------------------------------------------------------- reports

  function LandAll(outcomes: Outcomes, stack: seq<Stacked>): Outcomes {
    if stack == [] then outcomes
    else LandAll(outcomes, Init(stack))[Last(stack).entry.id := Landed(Last(stack).mapping)]
  }

  function RequeueAll(outcomes: Outcomes, stack: seq<Stacked>, reason: Reason): Outcomes {
    if stack == [] then outcomes
    else RequeueAll(outcomes, Init(stack), reason)[Last(stack).entry.id := Requeue(reason)]
  }

  lemma {:induction false} LandAllFacts(outcomes: Outcomes, stack: seq<Stacked>, id: string)
    ensures var r := LandAll(outcomes, stack);
            if Lookup(stack, id).Some? then id in r && r[id] == Landed(Lookup(stack, id).value)
            else (id in r <==> id in outcomes) && (id in r ==> r[id] == outcomes[id])
  {
    if stack != [] { LandAllFacts(outcomes, Init(stack), id); }
  }

  lemma {:induction false} RequeueAllFacts(outcomes: Outcomes, stack: seq<Stacked>, reason: Reason, id: string)
    ensures var r := RequeueAll(outcomes, stack, reason);
            if Lookup(stack, id).Some? then id in r && r[id] == Requeue(reason)
            else (id in r <==> id in outcomes) && (id in r ==> r[id] == outcomes[id])
  {
    if stack != [] { RequeueAllFacts(outcomes, Init(stack), reason, id); }
  }

  /** Give every entry without an outcome the one of a run that failed. */
  function FillMissing(outcomes: Outcomes, entries: seq<Entry>, landed: seq<Stacked>): (r: Outcomes)
    ensures forall id :: id in outcomes ==> id in r && r[id] == outcomes[id]
  {
    if entries == [] then outcomes
    else
      var r := FillMissing(outcomes, Init(entries), landed);
      var id := Last(entries).id;
      if id in r then r
      else r[id := match Lookup(landed, id) case Some(m) => Landed(m) case None => Requeue(RunFailed)]
  }

  lemma {:induction false} FillMissingFacts(outcomes: Outcomes, entries: seq<Entry>, landed: seq<Stacked>)
    ensures Complete(entries, FillMissing(outcomes, entries, landed))
    ensures forall id :: id in FillMissing(outcomes, entries, landed) && id !in outcomes ==>
              FillMissing(outcomes, entries, landed)[id] ==
                if Lookup(landed, id).Some? then Landed(Lookup(landed, id).value) else Requeue(RunFailed)
    ensures Complete(entries, outcomes) ==> FillMissing(outcomes, entries, landed) == outcomes
  {
    if entries != [] { FillMissingFacts(outcomes, Init(entries), landed); }
  }

  predicate Complete(entries: seq<Entry>, outcomes: Outcomes) {
    forall k :: 0 <= k < |entries| ==> entries[k].id in outcomes
  }

  /** What a push that was accepted maps for an entry. */
  function MappedBy(pushed: Option<PushPlan>, id: string): Option<seq<Mapping>> {
    if pushed.Some? then Lookup(pushed.value.stack, id) else None
  }

  /** "Landed" is the outcome of exactly the entries of the accepted push. */
  predicate OutcomesFit(entries: seq<Entry>, outcomes: Outcomes, pushed: Option<PushPlan>) {
    forall k :: 0 <= k < |entries| ==>
      var id := entries[k].id;
      var mapping := MappedBy(pushed, id);
      if mapping.Some? then id in outcomes && outcomes[id] == Landed(mapping.value)
      else id in outcomes ==> !outcomes[id].Landed?
  }

  function OutcomeList(entries: seq<Entry>, outcomes: Outcomes): (r: seq<(string, Outcome)>)
    ensures |r| == |entries|
    ensures forall k :: 0 <= k < |r| ==>
              r[k] == (entries[k].id, if entries[k].id in outcomes then outcomes[entries[k].id] else Requeue(NoOutcome))
  {
    if entries == [] then []
    else
      var id := Last(entries).id;
      OutcomeList(Init(entries), outcomes) + [(id, if id in outcomes then outcomes[id] else Requeue(NoOutcome))]
  }

  /** One outcome per claimed entry, in claim order. */
  function MakeReport(entries: seq<Entry>, outcomes: Outcomes, pushedTip: Option<Commit>): Report {
    Report(OutcomeList(entries, outcomes), pushedTip)
  }

  function TipOf(pushed: Option<PushPlan>): Option<Commit> {
    if pushed.Some? then Some(pushed.value.tip()) else None
  }

  lemma ReportFits(entries: seq<Entry>, outcomes: Outcomes, pushed: Option<PushPlan>)
    requires OutcomesFit(entries, outcomes, pushed)
    ensures ReportOk(entries, pushed, MakeReport(entries, outcomes, TipOf(pushed)))
  {
  }
}
