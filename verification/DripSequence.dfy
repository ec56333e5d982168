/** One contact, one worker at a time, every send successful: which steps go out, in what order and when. */
module DripSequence {
  import opened Counting
  import opened CampaignModel

  datatype Mail = Mail(step: nat, time: int)

  // ---- specification ----

  /** The e-mail steps at or after i, in order. */
  function EmailSteps(steps: seq<StepDef>, i: nat): seq<nat>
    decreases |steps| - i
  {
    if i >= |steps| then []
    else if steps[i].kind.Email? then [i] + EmailSteps(steps, i + 1)
    else EmailSteps(steps, i + 1)
  }

  /** Days between the mail of step i and the follow-up of step j. */
  function Delay(steps: seq<StepDef>, i: nat, j: nat): int {
    WaitBetween(steps, i + 1, j) + (if j < |steps| then steps[j].dayOffset else 0)
  }

  datatype Progress = Progress(row: Row, outbox: seq<Mail>)

  /** The mail of step idx goes out and the row moves on. */
  function Mailed(steps: seq<StepDef>, p: Progress, idx: nat, now: int): Progress {
    Progress(AdvancedRow(steps, p.row.(status := Sending, startedAt := now), idx, now), p.outbox + [Mail(idx, now)])
  }

  /** The effect of one batch on the contact. */
  function Iterated(steps: seq<StepDef>, p: Progress, now: int): Progress {
    if !Claimable(p.row) || !Due(p.row, now) then p
    else
      var idx := FirstEmail(steps, p.row.step);
      if idx >= |steps| then p.(row := p.row.(status := Completed))
      else Mailed(steps, p, idx, now)
  }

  /** The effect of the batches that run at the given times. */
  function Dripped(steps: seq<StepDef>, p: Progress, clock: seq<int>): Progress {
    if clock == [] then p
    else Iterated(steps, Dripped(steps, p, clock[..|clock| - 1]), clock[|clock| - 1])
  }

  function Steps(outbox: seq<Mail>): (r: seq<nat>)
    ensures |r| == |outbox|
  {
    seq(|outbox|, i requires 0 <= i < |outbox| => outbox[i].step)
  }

  // ---- the loops ----

  /** Skips waits; the first e-mail step sends. */
  method WalkToEmail(steps: seq<StepDef>, from: nat) returns (idx: nat)
    ensures idx == FirstEmail(steps, from)
  {
    idx := from;
    while idx < |steps|
      invariant FirstEmail(steps, from) == FirstEmail(steps, idx)
    {
      if steps[idx].kind.Wait? {
        idx := idx + 1;
        continue;
      }
      break;
    }
  }

  lemma {:induction false} WaitExtends(steps: seq<StepDef>, i: nat, j: nat)
    requires i <= j < |steps|
    ensures WaitBetween(steps, i, j + 1) == WaitBetween(steps, i, j) + steps[j].waitDays
    decreases j - i
  {
    if i < j { WaitExtends(steps, i + 1, j); }
  }

  /** The wait days of a stretch of steps, summed up. */
  function SumOfWaits(stretch: seq<StepDef>): int {
    if stretch == [] then 0 else SumOfWaits(stretch[..|stretch| - 1]) + stretch[|stretch| - 1].waitDays
  }

  /** Waits add up: over two stretches to their sum, over one step to its days, and so over none to nothing. */
  lemma {:induction false} WaitsAddUp(steps: seq<StepDef>, i: nat, j: nat, k: nat)
    requires i <= j <= k <= |steps|
    ensures WaitBetween(steps, i, j) + WaitBetween(steps, j, k) == WaitBetween(steps, i, k)
    ensures i == j ==> WaitBetween(steps, i, j) == 0
    ensures i < |steps| ==> WaitBetween(steps, i, i + 1) == steps[i].waitDays
    decreases j - i
  {
    if i < j { WaitsAddUp(steps, i + 1, j, k); }
  }

  lemma SumNext(steps: seq<StepDef>, i: nat, j: nat)
    requires i <= j < |steps|
    ensures SumOfWaits(steps[i..j + 1]) == SumOfWaits(steps[i..j]) + steps[j].waitDays
  {
    var longer := steps[i..j + 1];
    assert longer[..|longer| - 1] == steps[i..j];
  }

  lemma {:induction false} WaitIsSum(steps: seq<StepDef>, i: nat, j: nat)
    requires i <= j <= |steps|
    ensures WaitBetween(steps, i, j) == SumOfWaits(steps[i..j])
    decreases j - i
  {
    if i < j {
      WaitIsSum(steps, i, j - 1);
      WaitExtends(steps, i, j - 1);
      SumNext(steps, i, j - 1);
    }
  }

  /** The next e-mail step, and how many days later it is due: the wait days of the steps passed over, and its own day
      offset. */
  method NextStep(steps: seq<StepDef>, idx: nat) returns (nextIdx: nat, nextDays: int)
    requires idx < |steps|
    ensures idx < nextIdx <= |steps| && (nextIdx < |steps| ==> steps[nextIdx].kind.Email?)
    ensures forall j :: idx < j < nextIdx ==> steps[j].kind.Wait?
    ensures nextDays ==
      SumOfWaits(steps[idx + 1..nextIdx]) + (if nextIdx < |steps| then steps[nextIdx].dayOffset else 0)
    ensures nextIdx == FirstEmail(steps, idx + 1) && nextDays == Delay(steps, idx, nextIdx)
  {
    nextIdx := idx + 1;
    nextDays := 0;
    while nextIdx < |steps| && steps[nextIdx].kind.Wait?
      invariant idx + 1 <= nextIdx <= |steps|
      invariant FirstEmail(steps, idx + 1) == FirstEmail(steps, nextIdx)
      invariant forall j :: idx < j < nextIdx ==> steps[j].kind.Wait?
      invariant nextDays == SumOfWaits(steps[idx + 1..nextIdx])
    {
      SumNext(steps, idx + 1, nextIdx);
      nextDays := nextDays + steps[nextIdx].waitDays;
      nextIdx := nextIdx + 1;
    }
    WaitIsSum(steps, idx + 1, nextIdx);
    if nextIdx < |steps| {
      nextDays := nextDays + steps[nextIdx].dayOffset;
    }
  }

  class ContactRun {
    var row: Row
    var outbox: seq<Mail>

    function Now(): Progress
      reads this
    {
      Progress(row, outbox)
    }

    constructor (campaign: CampaignId, enrolled: int)
      ensures Now() == Progress(Row(campaign, Pending, 0, Some(enrolled), 0, false), [])
    {
      row := Row(campaign, Pending, 0, Some(enrolled), 0, false);
      outbox := [];
    }

    /** The contact's iteration of one batch. */
    method Iterate(steps: seq<StepDef>, now: int)
      modifies this
      ensures Now() == Iterated(steps, old(Now()), now)
    {
      if !Claimable(row) || !Due(row, now) { return; }
      var idx := WalkToEmail(steps, row.step);
      if idx >= |steps| {
        row := row.(status := Completed);
        return;
      }
      row := row.(status := Sending, startedAt := now);
      outbox := outbox + [Mail(idx, now)];
      var nextIdx, nextDays := NextStep(steps, idx);
      if nextIdx >= |steps| {
        row := row.(status := Completed, step := idx);
      } else {
        row := row.(status := Active, step := nextIdx, nextSendAt := Some(now + nextDays * DAY));
      }
    }

    method RunAll(steps: seq<StepDef>, clock: seq<int>)
      modifies this
      ensures Now() == Dripped(steps, old(Now()), clock)
    {
      for i := 0 to |clock|
        invariant Now() == Dripped(steps, old(Now()), clock[..i])
      {
        assert clock[..i + 1][..i] == clock[..i];
        Iterate(steps, clock[i]);
      }
      assert clock[..|clock|] == clock;
    }
  }

  // ---- what the loops achieve ----

  lemma {:induction false} EmailStepsFrom(steps: seq<StepDef>, i: nat)
    ensures var f := FirstEmail(steps, i);
      EmailSteps(steps, i) == if f >= |steps| then [] else [f] + EmailSteps(steps, f + 1)
    decreases |steps| - i
  {
    if i < |steps| && steps[i].kind.Wait? { EmailStepsFrom(steps, i + 1); }
  }

  lemma {:induction false} SameFirst(steps: seq<StepDef>, i: nat)
    ensures EmailSteps(steps, i) == EmailSteps(steps, FirstEmail(steps, i))
    decreases |steps| - i
  {
    if i < |steps| && steps[i].kind.Wait? { SameFirst(steps, i + 1); }
  }

  /** Numbers from lo to below hi, in increasing order. */
  predicate Ascending(js: seq<nat>, lo: nat, hi: nat) {
    && (forall a :: 0 <= a < |js| ==> lo <= js[a] < hi)
    && (forall a, b :: 0 <= a < b < |js| ==> js[a] < js[b])
  }

  lemma AscendingFrom(rest: seq<nat>, lo: nat, hi: nat)
    requires lo < hi && Ascending(rest, lo + 1, hi)
    ensures Ascending([lo] + rest, lo, hi)
  {
    var js := [lo] + rest;
    assert forall a :: 0 < a < |js| ==> js[a] == rest[a - 1];
  }

  lemma {:induction false} StepsAscend(steps: seq<StepDef>, i: nat)
    ensures Ascending(EmailSteps(steps, i), i, |steps|)
    decreases |steps| - i
  {
    if i < |steps| {
      StepsAscend(steps, i + 1);
      AscendingFrom(EmailSteps(steps, i + 1), i, |steps|);
    }
  }

  predicate Fresh(p: Progress) {
    p.outbox == [] && p.row.status == Pending && p.row.step == 0
  }

  /** What went out and what lies ahead make up the campaign. */
  predicate Balanced(steps: seq<StepDef>, p: Progress) {
    && (Claimable(p.row) ==> Steps(p.outbox) + EmailSteps(steps, p.row.step) == EmailSteps(steps, 0))
    && (p.row.status == Completed ==> Steps(p.outbox) == EmailSteps(steps, 0))
    && (Claimable(p.row) || p.row.status == Completed)
  }

  /** A waiting contact that got a mail waits for its next e-mail step to become due; a completed one stays at its
      last. */
  predicate Scheduled(steps: seq<StepDef>, p: Progress) {
    p.outbox != [] ==>
      var last := p.outbox[|p.outbox| - 1];
      && (p.row.status == Completed ==> p.row.step == last.step)
      && (Claimable(p.row) ==>
            && FirstEmail(steps, p.row.step) == p.row.step < |steps|
            && p.row.nextSendAt == Some(last.time + Delay(steps, last.step, p.row.step) * DAY))
  }

  predicate OnTrack(steps: seq<StepDef>, p: Progress) {
    Balanced(steps, p) && Scheduled(steps, p)
  }

  /** Every follow-up waits for the intervening wait days plus its own day offset. */
  predicate Spaced(steps: seq<StepDef>, outbox: seq<Mail>) {
    forall i :: 0 <= i < |outbox| - 1 ==>
      outbox[i + 1].time >= outbox[i].time + Delay(steps, outbox[i].step, outbox[i + 1].step) * (24 * 60 * 60)
  }

  lemma StepsSnoc(outbox: seq<Mail>, m: Mail)
    ensures Steps(outbox + [m]) == Steps(outbox) + [m.step]
  {
  }

  /** The last mail completes the contact. */
  lemma LastMailBalances(steps: seq<StepDef>, p: Progress, now: int, idx: nat)
    requires Balanced(steps, p) && Claimable(p.row) && idx == FirstEmail(steps, p.row.step) < |steps|
    requires FirstEmail(steps, idx + 1) >= |steps|
    ensures Balanced(steps, Mailed(steps, p, idx, now))
  {
    EmailStepsFrom(steps, p.row.step);
    EmailStepsFrom(steps, idx + 1);
    StepsSnoc(p.outbox, Mail(idx, now));
  }

  /** Any other leaves the rest of the e-mail steps ahead of it. */
  lemma NextMailBalances(steps: seq<StepDef>, p: Progress, now: int, idx: nat)
    requires Balanced(steps, p) && Claimable(p.row) && idx == FirstEmail(steps, p.row.step) < |steps|
    requires FirstEmail(steps, idx + 1) < |steps|
    ensures Balanced(steps, Mailed(steps, p, idx, now))
  {
    EmailStepsFrom(steps, p.row.step);
    SameFirst(steps, idx + 1);
    StepsSnoc(p.outbox, Mail(idx, now));
  }

  lemma MailSchedules(steps: seq<StepDef>, p: Progress, now: int, idx: nat)
    ensures Scheduled(steps, Mailed(steps, p, idx, now))
  {
    FirstIsFixed(steps, idx + 1);
  }

  /** It is never early. */
  lemma MailKeepsSpacing(steps: seq<StepDef>, p: Progress, now: int, idx: nat)
    requires OnTrack(steps, p) && Spaced(steps, p.outbox) && Claimable(p.row) && Due(p.row, now)
    requires idx == FirstEmail(steps, p.row.step)
    ensures Spaced(steps, p.outbox + [Mail(idx, now)])
  {
  }

  lemma IterateKeepsTrack(steps: seq<StepDef>, p: Progress, now: int)
    requires OnTrack(steps, p) && Spaced(steps, p.outbox)
    ensures OnTrack(steps, Iterated(steps, p, now)) && Spaced(steps, Iterated(steps, p, now).outbox)
  {
    if Claimable(p.row) && Due(p.row, now) {
      var idx := FirstEmail(steps, p.row.step);
      EmailStepsFrom(steps, p.row.step);
      if idx < |steps| {
        if FirstEmail(steps, idx + 1) >= |steps| {
          LastMailBalances(steps, p, now, idx);
        } else {
          NextMailBalances(steps, p, now, idx);
        }
        MailSchedules(steps, p, now, idx);
        MailKeepsSpacing(steps, p, now, idx);
      }
    }
  }

  lemma {:induction false} FirstIsFixed(steps: seq<StepDef>, i: nat)
    ensures var f := FirstEmail(steps, i); FirstEmail(steps, f) == f && (f >= |steps| ==> EmailSteps(steps, f) == [])
    decreases |steps| - i
  {
    if i < |steps| && steps[i].kind.Wait? { FirstIsFixed(steps, i + 1); }
  }

  /** Over any clock, the mails sent are an initial part of the e-mail steps, none skipped, repeated or early;
      a completed contact has received all of them. */
  lemma {:induction false} DripsInOrder(steps: seq<StepDef>, p: Progress, clock: seq<int>)
    requires Fresh(p)
    ensures var q := Dripped(steps, p, clock);
      && Steps(q.outbox) <= EmailSteps(steps, 0)
      && (q.row.status == Completed ==> Steps(q.outbox) == EmailSteps(steps, 0))
      && Spaced(steps, q.outbox)
    ensures OnTrack(steps, Dripped(steps, p, clock))
  {
    if clock != [] {
      DripsInOrder(steps, p, clock[..|clock| - 1]);
      IterateKeepsTrack(steps, Dripped(steps, p, clock[..|clock| - 1]), clock[|clock| - 1]);
    } else {
      assert Steps(p.outbox) == [];
    }
  }

  // ---- when the contact is completed ----

  /** How many of the iterations found the contact due. */
  function DueIterations(steps: seq<StepDef>, p: Progress, clock: seq<int>): nat {
    if clock == [] then 0
    else
      var q := Dripped(steps, p, clock[..|clock| - 1]);
      DueIterations(steps, p, clock[..|clock| - 1]) + Bit(Claimable(q.row) && Due(q.row, clock[|clock| - 1]))
  }

  /** One iteration for each e-mail step, and one to find out that there is none. */
  function Needed(steps: seq<StepDef>): nat {
    if EmailSteps(steps, 0) == [] then 1 else |EmailSteps(steps, 0)|
  }

  /** Due iterations against mails sent. */
  predicate Keeping(steps: seq<StepDef>, q: Progress, due: nat) {
    if EmailSteps(steps, 0) == [] then due == Bit(q.row.status == Completed)
    else due == |q.outbox| && (Claimable(q.row) ==> |q.outbox| < |EmailSteps(steps, 0)|)
  }

  /** A waiting contact of a campaign with e-mail steps still has one ahead of it. */
  lemma OneAhead(steps: seq<StepDef>, q: Progress)
    requires OnTrack(steps, q) && Claimable(q.row) && (q.outbox == [] ==> EmailSteps(steps, 0) != [])
    ensures EmailSteps(steps, q.row.step) != [] && |q.outbox| < |EmailSteps(steps, 0)|
  {
    EmailStepsFrom(steps, q.row.step);
    assert |Steps(q.outbox)| + |EmailSteps(steps, q.row.step)| == |EmailSteps(steps, 0)|;
    if q.outbox == [] { assert Steps(q.outbox) == []; }
  }

  lemma IterateKeepsCount(steps: seq<StepDef>, q: Progress, now: int, due: nat)
    requires OnTrack(steps, q) && Keeping(steps, q, due) && (EmailSteps(steps, 0) == [] ==> q.outbox == [])
    requires OnTrack(steps, Iterated(steps, q, now))
    ensures Keeping(steps, Iterated(steps, q, now), due + Bit(Claimable(q.row) && Due(q.row, now)))
    ensures EmailSteps(steps, 0) == [] ==> Iterated(steps, q, now).outbox == []
  {
    if Claimable(q.row) && Due(q.row, now) {
      EmailStepsFrom(steps, q.row.step);
      if EmailSteps(steps, 0) == [] {
        assert Steps(q.outbox) == [];
      } else {
        OneAhead(steps, q);
        if Claimable(Iterated(steps, q, now).row) { OneAhead(steps, Iterated(steps, q, now)); }
      }
    }
  }

  lemma {:induction false} RunKeepsCount(steps: seq<StepDef>, p: Progress, clock: seq<int>)
    requires Fresh(p)
    ensures Keeping(steps, Dripped(steps, p, clock), DueIterations(steps, p, clock))
    ensures EmailSteps(steps, 0) == [] ==> Dripped(steps, p, clock).outbox == []
  {
    if clock != [] {
      var front := clock[..|clock| - 1];
      RunKeepsCount(steps, p, front);
      DripsInOrder(steps, p, front);
      DripsInOrder(steps, p, clock);
      IterateKeepsCount(steps, Dripped(steps, p, front), clock[|clock| - 1], DueIterations(steps, p, front));
    }
  }

  /** A contact is completed exactly when it was found due as often as its campaign has e-mail steps, once if it has
      none, and it is never found due more often. */
  lemma CompletedExactly(steps: seq<StepDef>, p: Progress, clock: seq<int>)
    requires Fresh(p)
    ensures DueIterations(steps, p, clock) <= Needed(steps)
    ensures Dripped(steps, p, clock).row.status == Completed <==> DueIterations(steps, p, clock) == Needed(steps)
  {
    RunKeepsCount(steps, p, clock);
    DripsInOrder(steps, p, clock);
    var q := Dripped(steps, p, clock);
    assert |Steps(q.outbox)| == |q.outbox|;
  }
}
