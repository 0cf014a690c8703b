// Status conditions of the custom resource (cr.go) and the condition helpers they use.

module Conditions {

  datatype Kind = Available | Progressing | Degraded | Other(name: string)

  datatype Truth = Yes | No | Unknown

  datatype Condition = Condition(
    kind: Kind,
    status: Truth,
    reason: string,
    message: string,
    transition: nat,
    heartbeat: nat)

  /** Position of the first condition of a kind, or the length. */
  function Index(cs: seq<Condition>, kind: Kind): (r: nat)
    ensures r <= |cs|
    ensures r < |cs| ==> cs[r].kind == kind
    ensures forall i | 0 <= i < r :: cs[i].kind != kind
  {
    if cs == [] || cs[0].kind == kind then 0 else 1 + Index(cs[1..], kind)
  }

  /** The list after a condition is set at a given time. */
  function WithCondition(cs: seq<Condition>, kind: Kind, status: Truth, reason: string, message: string,
                         now: nat): seq<Condition> {
    var i := Index(cs, kind);
    if i == |cs| then cs + [Condition(kind, status, reason, message, now, now)]
    else cs[i := Condition(kind, status, reason, message, if cs[i].status == status then cs[i].transition
                           else now, now)]
  }

  /** The status of a kind, if it is listed. */
  function StatusOf(cs: seq<Condition>, kind: Kind): Truth {
    if Index(cs, kind) < |cs| then cs[Index(cs, kind)].status else Unknown
  }

  ghost predicate Distinct(cs: seq<Condition>) {
    forall i | 0 <= i < |cs| :: Index(cs, cs[i].kind) == i
  }

  ghost predicate Has(cs: seq<Condition>, kind: Kind) {
    Index(cs, kind) < |cs|
  }

  /** One entry per kind, with the three kinds the operator maintains among them. */
  ghost predicate Complete(cs: seq<Condition>) {
    Distinct(cs) && Has(cs, Available) && Has(cs, Progressing) && Has(cs, Degraded)
  }

  // ------------------------------------------------------------------------- life phases

  datatype Phase = Healthy | Deploying | Failed | FailedHealing | Upgrading

  datatype Triple = Triple(available: Truth, progressing: Truth, degraded: Truth)

  function Statuses(cs: seq<Condition>): Triple {
    Triple(StatusOf(cs, Available), StatusOf(cs, Progressing), StatusOf(cs, Degraded))
  }

  function TripleOf(phase: Phase): Triple {
    match phase
    case Healthy => Triple(Yes, No, No)
    case Deploying => Triple(No, Yes, No)
    case Failed => Triple(No, No, Yes)
    case FailedHealing => Triple(No, Yes, Yes)
    case Upgrading => Triple(Yes, Yes, Yes)
  }

  /** The condition of a phase that carries its reason and message. */
  function Spokesman(phase: Phase): Kind {
    match phase
    case Healthy => Available
    case Deploying => Progressing
    case _ => Degraded
  }

  /** The list after the three conditions are set for a phase. */
  function Marked(cs: seq<Condition>, phase: Phase, reason: string, message: string, now: nat): seq<Condition> {
    var t, k := TripleOf(phase), Spokesman(phase);
    var first := WithCondition(cs, Available, t.available, if k == Available then reason
                               else "", if k == Available then message else "", now);
    var second := WithCondition(first, Progressing, t.progressing, if k == Progressing then reason
                                else "", if k == Progressing then message else "", now);
    WithCondition(second, Degraded, t.degraded, if k == Degraded then reason else "", if k == Degraded then message
                  else "", now)
  }

  lemma SameKindsSameIndex(a: seq<Condition>, b: seq<Condition>, k: Kind)
    requires |a| == |b| && forall i | 0 <= i < |a| :: b[i].kind == a[i].kind
    ensures Index(a, k) == Index(b, k)
  {
    var i, j := Index(a, k), Index(b, k);
    if i < |a| { assert b[i].kind == k; }
    if j < |b| { assert a[j].kind == k; }
  }

  lemma {:induction false} IndexAppend(cs: seq<Condition>, c: Condition, k: Kind)
    ensures Index(cs + [c], k) == if Index(cs, k) < |cs| then Index(cs, k) else if c.kind == k then |cs| else |cs| + 1
  {
    if cs != [] {
      IndexAppend(cs[1..], c, k);
      assert (cs + [c])[1..] == cs[1..] + [c];
    }
  }

  /** Conditions keep their places; a kind that was missing goes to the end. */
  lemma IndexAfterSet(cs: seq<Condition>, kind: Kind, status: Truth, reason: string, message: string, now: nat, k: Kind)
    ensures var r := WithCondition(cs, kind, status, reason, message, now);
            Index(r, k) == if k == kind then Index(cs, kind) else if Index(cs, k) < |cs| then Index(cs, k) else |r|
  {
    if Index(cs, kind) == |cs| {
      IndexAppend(cs, Condition(kind, status, reason, message, now, now), k);
    } else {
      SameKindsSameIndex(cs, WithCondition(cs, kind, status, reason, message, now), k);
    }
  }

  lemma AfterSet(cs: seq<Condition>, kind: Kind, status: Truth, reason: string, message: string, now: nat)
    requires Distinct(cs)
    ensures var r := WithCondition(cs, kind, status, reason, message, now);
            && Distinct(r) && Has(r, kind) && StatusOf(r, kind) == status
            && (forall k | Has(cs, k) :: Has(r, k))
            && (forall k | k != kind :: StatusOf(r, k) == StatusOf(cs, k))
  {
    var r := WithCondition(cs, kind, status, reason, message, now);
    IndexAfterSet(cs, kind, status, reason, message, now, kind);
    forall k | Has(cs, k) ensures Has(r, k) { IndexAfterSet(cs, kind, status, reason, message, now, k); }
    forall k | k != kind ensures StatusOf(r, k) == StatusOf(cs, k) {
      IndexAfterSet(cs, kind, status, reason, message, now, k);
    }
    forall i | 0 <= i < |r| ensures Index(r, r[i].kind) == i {
      IndexAfterSet(cs, kind, status, reason, message, now, r[i].kind);
      if i < |cs| { assert r[i].kind == cs[i].kind; }
    }
  }

  /** Marking a phase sets its three statuses, keeps one entry per kind and drops no kind. */
  lemma MarkSetsPhase(cs: seq<Condition>, phase: Phase, reason: string, message: string, now: nat)
    requires Distinct(cs)
    ensures var r := Marked(cs, phase, reason, message, now);
            Statuses(r) == TripleOf(phase) && Complete(r) && forall k | Has(cs, k) :: Has(r, k)
  {
    var t, s := TripleOf(phase), Spokesman(phase);
    var first := WithCondition(cs, Available, t.available, if s == Available then reason
                               else "", if s == Available then message else "", now);
    var second := WithCondition(first, Progressing, t.progressing, if s == Progressing then reason
                                else "", if s == Progressing then message else "", now);
    AfterSet(cs, Available, t.available, if s == Available then reason else "", if s == Available then message
             else "", now);
    AfterSet(first, Progressing, t.progressing, if s == Progressing then reason
             else "", if s == Progressing then message else "", now);
    AfterSet(second, Degraded, t.degraded, if s == Degraded then reason else "", if s == Degraded then message
             else "", now);
  }

  // ------------------------------------------------------------------ heartbeat masking

  predicate SameContent(a: Condition, b: Condition) {
    a.message == b.message && a.reason == b.reason && a.status == b.status
  }

  /** copy with the heartbeats of now wherever nothing else about a condition changed. */
  function Masked(copy: seq<Condition>, now: seq<Condition>): (r: seq<Condition>)
    requires forall i | 0 <= i < |copy| :: Index(now, copy[i].kind) < |now|
    ensures |r| == |copy|
  {
    seq(|copy|, i requires 0 <= i < |copy| =>
      var c := now[Index(now, copy[i].kind)];
      if SameContent(c, copy[i]) then copy[i].(heartbeat := c.heartbeat) else copy[i])
  }

  /** The three conditions of a phase, with the reason and message given, are what is listed. */
  ghost predicate Shows(cs: seq<Condition>, phase: Phase, reason: string, message: string) {
    && Complete(cs) && Statuses(cs) == TripleOf(phase)
    && forall i | 0 <= i < |cs| && !cs[i].kind.Other? ::
         if cs[i].kind == Spokesman(phase) then cs[i].reason == reason && cs[i].message == message
         else cs[i].reason == "" && cs[i].message == ""
  }

  /** What a phase looks like from outside: available when healthy or upgrading; progressing when deploying,
    upgrading or healing; degraded when failed, healing or upgrading. The reason stands on the available condition
    when healthy, on the progressing one when deploying, and on the degraded one otherwise. */
  lemma PhaseLooks(cs: seq<Condition>, phase: Phase, reason: string, message: string, i: nat)
    requires Shows(cs, phase, reason, message) && i < |cs| && !cs[i].kind.Other?
    ensures cs[i].status == match cs[i].kind
                            case Available => if phase.Healthy? || phase.Upgrading? then Yes else No
                            case Progressing =>
                              if phase.Deploying? || phase.Upgrading? || phase.FailedHealing? then Yes else No
                            case _ => if phase.Failed? || phase.Upgrading? || phase.FailedHealing? then Yes else No
    ensures var speaks := match cs[i].kind
              case Available => phase.Healthy?
              case Progressing => phase.Deploying?
              case _ => !phase.Healthy? && !phase.Deploying?;
            (cs[i].reason, cs[i].message) == if speaks then (reason, message) else ("", "")
  {
  }

  /** b is a with other heartbeats. */
  ghost predicate SameButHeartbeats(a: seq<Condition>, b: seq<Condition>) {
    |a| == |b| && forall i | 0 <= i < |a| :: b[i] == a[i].(heartbeat := b[i].heartbeat)
  }

  /** Setting a condition to what it says already only moves its heartbeat. */
  lemma SettingAgain(cs: seq<Condition>, kind: Kind, status: Truth, reason: string, message: string, now: nat)
    requires Has(cs, kind)
    requires var c := cs[Index(cs, kind)]; c.status == status && c.reason == reason && c.message == message
    ensures SameButHeartbeats(cs, WithCondition(cs, kind, status, reason, message, now))
  {
  }

  /** Marking a phase again changes nothing but heartbeats, and masking hides those. */
  lemma HeartbeatOnly(cs: seq<Condition>, phase: Phase, reason: string, message: string, now: nat)
    requires Shows(cs, phase, reason, message)
    ensures SameButHeartbeats(cs, Marked(cs, phase, reason, message, now))
  {
    var t, s := TripleOf(phase), Spokesman(phase);
    var first := WithCondition(cs, Available, t.available, if s == Available then reason
                               else "", if s == Available then message else "", now);
    var second := WithCondition(first, Progressing, t.progressing, if s == Progressing then reason
                                else "", if s == Progressing then message else "", now);
    SettingAgain(cs, Available, t.available, if s == Available then reason else "", if s == Available then message
                 else "", now);
    SameKindsSameIndex(cs, first, Progressing);
    SettingAgain(first, Progressing, t.progressing, if s == Progressing then reason
                 else "", if s == Progressing then message else "", now);
    SameKindsSameIndex(cs, second, Degraded);
    SettingAgain(second, Degraded, t.degraded, if s == Degraded then reason else "", if s == Degraded then message
                 else "", now);
  }

  /** What each of the three conditions is after a phase is marked. */
  lemma ContentAfterMark(cs: seq<Condition>, phase: Phase, reason: string, message: string, now: nat, k: Kind)
    requires !k.Other?
    ensures var r, s := Marked(cs, phase, reason, message, now), StatusFor(TripleOf(phase), k);
            && Has(r, k) && r[Index(r, k)].status == s
            && r[Index(r, k)].reason == (if k == Spokesman(phase) then reason else "")
            && r[Index(r, k)].message == (if k == Spokesman(phase) then message else "")
            && r[Index(r, k)].transition == if Has(cs, k)
                                               && cs[Index(cs, k)].status == s then cs[Index(cs, k)].transition else now
  {
    var t, s := TripleOf(phase), Spokesman(phase);
    var first := WithCondition(cs, Available, t.available, if s == Available then reason
                               else "", if s == Available then message else "", now);
    var second := WithCondition(first, Progressing, t.progressing, if s == Progressing then reason
                                else "", if s == Progressing then message else "", now);
    hide WithCondition;
    ContentAfterSet(cs, Available, t.available, if s == Available then reason else "", if s == Available then message
                    else "", now, k);
    ContentAfterSet(first, Progressing, t.progressing, if s == Progressing then reason
                    else "", if s == Progressing then message else "", now, k);
    ContentAfterSet(second, Degraded, t.degraded, if s == Degraded then reason else "", if s == Degraded then message
                    else "", now, k);
  }

  /** Whether a kind is listed, and what it says, once one of the kinds is set. */
  lemma ContentAfterSet(cs: seq<Condition>, kind: Kind, status: Truth, reason: string, message: string, now: nat,
                        k: Kind)
    ensures var r := WithCondition(cs, kind, status, reason, message, now);
            && (Has(r, k) <==> k == kind || Has(cs, k))
            && (k == kind ==> r[Index(r, k)].reason == reason && r[Index(r, k)].message == message
                              && r[Index(r, k)].status == status
                              && r[Index(r, k)].transition ==
                                 if Has(cs, k) && cs[Index(cs, k)].status == status then cs[Index(cs, k)].transition
                                 else now)
            && (k != kind && Has(cs, k) ==> r[Index(r, k)] == cs[Index(cs, k)])
  {
    IndexAfterSet(cs, kind, status, reason, message, now, k);
  }

  function StatusFor(t: Triple, k: Kind): Truth {
    match k
    case Available => t.available
    case Progressing => t.progressing
    case Degraded => t.degraded
    case Other(_) => Unknown
  }

  /** A marked phase, with its reason and message, is what is listed. */
  lemma MarkShows(cs: seq<Condition>, phase: Phase, reason: string, message: string, now: nat)
    requires Distinct(cs)
    ensures Shows(Marked(cs, phase, reason, message, now), phase, reason, message)
  {
    hide Marked;
    var r := Marked(cs, phase, reason, message, now);
    MarkSetsPhase(cs, phase, reason, message, now);
    forall i | 0 <= i < |r| && !r[i].kind.Other?
      ensures r[i].reason == (if r[i].kind == Spokesman(phase) then reason else "")
      ensures r[i].message == (if r[i].kind == Spokesman(phase) then message else "")
    {
      ContentAfterMark(cs, phase, reason, message, now, r[i].kind);
    }
  }

  /** What is listed does not depend on heartbeats. */
  lemma ShowsUpToHeartbeats(a: seq<Condition>, b: seq<Condition>, phase: Phase, reason: string, message: string)
    requires SameButHeartbeats(a, b) && Shows(b, phase, reason, message)
    ensures Shows(a, phase, reason, message)
  {
    forall k ensures Index(a, k) == Index(b, k) { SameKindsSameIndex(a, b, k); }
  }

  /** Not available since a given time. */
  predicate DownSince(cs: seq<Condition>, now: nat) {
    var i := Index(cs, Available);
    i < |cs| && cs[i].status == No && cs[i].transition == now
  }

  /** Marked healthy and then failed, a resource counts as not available since just now, so it is
      the same but for heartbeats only if it did so before. */
  lemma FailingAgainShows(cs: seq<Condition>, reason: string, message: string, why: string, text: string, now: nat)
    ensures var r := Marked(Marked(cs, Healthy, reason, message, now), FailedHealing, why, text, now);
            DownSince(r, now) && (SameButHeartbeats(cs, r) ==> DownSince(cs, now))
  {
    var mid := Marked(cs, Healthy, reason, message, now);
    var r := Marked(mid, FailedHealing, why, text, now);
    hide Marked;
    ContentAfterMark(cs, Healthy, reason, message, now, Available);
    ContentAfterMark(mid, FailedHealing, why, text, now, Available);
    if SameButHeartbeats(cs, r) { SameKindsSameIndex(cs, r, Available); }
  }

  /** What the mask leaves different is exactly what differs beyond heartbeats. */
  lemma MaskIsExact(cs: seq<Condition>, now: seq<Condition>)
    requires Distinct(cs) && forall i | 0 <= i < |cs| :: Index(now, cs[i].kind) < |now|
    ensures Masked(cs, now) == now <==> SameButHeartbeats(cs, now)
  {
    if SameButHeartbeats(cs, now) { MaskHidesHeartbeats(cs, now); }
  }

  lemma MaskHidesHeartbeats(cs: seq<Condition>, now: seq<Condition>)
    requires SameButHeartbeats(cs, now) && Distinct(cs)
    ensures forall i | 0 <= i < |cs| :: Index(now, cs[i].kind) < |now|
    ensures Masked(cs, now) == now
  {
    forall i | 0 <= i < |cs| ensures Index(now, cs[i].kind) == i { SameKindsSameIndex(cs, now, cs[i].kind); }
  }
}
