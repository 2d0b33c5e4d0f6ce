/** The ICE-gathering flags of the driver: when end-of-candidates is handed to the core. */
module Gathering {

  datatype Candidate = Candidate(text: string) | EndOfCandidates

  /** Events that reach the flags, in the order the driver handles them. */
  datatype Event =
    | IceGathering(relayOnly: bool, tcp: seq<Candidate>)
    | StunCandidate(c: Candidate)
    | StunComplete
    | TurnCandidate(c: Candidate)
    | TurnComplete

  datatype Flags = Flags(active: bool, stun: bool, turn: bool)

  function Step(f: Flags, e: Event): Flags {
    match e
    case IceGathering(_, _) => Flags(true, false, false)
    case StunComplete => Finish(f.(stun := true))
    case TurnComplete => Finish(f.(turn := true))
    case _ => f
  }

  predicate Ready(f: Flags) {
    f.active && f.stun && f.turn
  }

  function Finish(f: Flags): Flags {
    if Ready(f) then f.(active := false) else f
  }

  /** Candidates the core receives for one event. */
  function Added(f: Flags, e: Event): seq<Candidate> {
    match e
    case IceGathering(relayOnly, tcp) => if relayOnly then [] else tcp
    case StunCandidate(c) => [c]
    case TurnCandidate(c) => [c]
    case StunComplete => if Ready(f.(stun := true)) then [EndOfCandidates] else []
    case TurnComplete => if Ready(f.(turn := true)) then [EndOfCandidates] else []
  }

  class Driver {
    var iceGatheringActive: bool
    var stunGatheringComplete: bool
    var turnGatheringComplete: bool
    var localCandidates: seq<Candidate>

    ghost function View(): Flags
      reads this
    {
      Flags(iceGatheringActive, stunGatheringComplete, turnGatheringComplete)
    }

    constructor ()
      ensures View() == Flags(false, false, false) && localCandidates == []
    {
      iceGatheringActive, stunGatheringComplete, turnGatheringComplete := false, false, false;
      localCandidates := [];
    }

    method FinishGatheringIfReady()
      modifies this
      ensures View() == Finish(old(View()))
      ensures localCandidates == old(localCandidates) + (if Ready(old(View())) then [EndOfCandidates] else [])
    {
      if iceGatheringActive && stunGatheringComplete && turnGatheringComplete {
        iceGatheringActive := false;
        localCandidates := localCandidates + [EndOfCandidates];
      }
    }

    method HandleGatherEvent(e: Event)
      modifies this
      ensures View() == Step(old(View()), e)
      ensures localCandidates == old(localCandidates) + Added(old(View()), e)
    {
      match e {
        case IceGathering(relayOnly, tcp) =>
          iceGatheringActive := true;
          stunGatheringComplete := false;
          turnGatheringComplete := false;
          if !relayOnly {
            localCandidates := localCandidates + tcp;
          }
        case StunCandidate(c) =>
          localCandidates := localCandidates + [c];
        case TurnCandidate(c) =>
          localCandidates := localCandidates + [c];
        case StunComplete =>
          stunGatheringComplete := true;
          FinishGatheringIfReady();
        case TurnComplete =>
          turnGatheringComplete := true;
          FinishGatheringIfReady();
      }
    }
  }

  // ---------------------------------------------------------------- whole runs

  function Run(events: seq<Event>): Flags {
    if events == [] then Flags(false, false, false)
    else Step(Run(events[..|events| - 1]), events[|events| - 1])
  }

  /** Handling event `i` of the run hands end-of-candidates to the core. */
  predicate EndsAt(events: seq<Event>, i: nat)
    requires i < |events|
  {
    (events[i].StunComplete? || events[i].TurnComplete?) && Added(Run(events[..i]), events[i]) == [EndOfCandidates]
  }

  /** `g` is the latest `IceGathering` among the first `n` events. */
  predicate LatestGathering(events: seq<Event>, g: int, n: nat) {
    && 0 <= g < n <= |events|
    && events[g].IceGathering?
    && forall j :: g < j < n ==> !events[j].IceGathering?
  }

  predicate StunSince(events: seq<Event>, g: int, n: nat)
    requires n <= |events|
  {
    exists j :: 0 <= j && g < j < n && events[j].StunComplete?
  }

  predicate TurnSince(events: seq<Event>, g: int, n: nat)
    requires n <= |events|
  {
    exists j :: 0 <= j && g < j < n && events[j].TurnComplete?
  }

  predicate BothSince(events: seq<Event>, g: int, n: nat)
    requires n <= |events|
  {
    StunSince(events, g, n) && TurnSince(events, g, n)
  }

  predicate NoGathering(events: seq<Event>, n: nat)
    requires n <= |events|
  {
    forall j :: 0 <= j < n ==> !events[j].IceGathering?
  }

  /** What the flags say about the history of the run. */
  predicate FlagsTell(events: seq<Event>, g: int, n: nat)
    requires n <= |events|
  {
    var f := Run(events[..n]);
    && (f.stun <==> StunSince(events, g, n))
    && (f.turn <==> TurnSince(events, g, n))
    && (f.active <==> g >= 0 && !BothSince(events, g, n))
  }

  lemma SinceStep(events: seq<Event>, g: int, n: nat)
    requires g < n < |events|
    ensures StunSince(events, g, n + 1) <==> StunSince(events, g, n) || events[n].StunComplete?
    ensures TurnSince(events, g, n + 1) <==> TurnSince(events, g, n) || events[n].TurnComplete?
  {
  }

  lemma RunStep(events: seq<Event>, n: nat)
    requires n < |events|
    ensures Run(events[..n + 1]) == Step(Run(events[..n]), events[n])
  {
    assert events[..n + 1][..n] == events[..n];
  }

  lemma {:induction false} FlagsTellHistory(events: seq<Event>, g: int, n: nat)
    requires n <= |events|
    requires LatestGathering(events, g, n) || (g == -1 && NoGathering(events, n))
    ensures FlagsTell(events, g, n)
    decreases n
  {
    if n > 0 {
      RunStep(events, n - 1);
      if g != n - 1 {
        FlagsTellHistory(events, g, n - 1);
        SinceStep(events, g, n - 1);
      }
    }
  }

  /** End-of-candidates is handed over exactly at the event that completes both gatherers for the
      first time since the latest `IceGathering`. */
  lemma EndsExactlyWhenBothComplete(events: seq<Event>, i: nat)
    requires i < |events|
    ensures EndsAt(events, i) <==>
              exists g :: LatestGathering(events, g, i) && BothSince(events, g, i + 1) && !BothSince(events, g, i)
  {
    if exists g :: LatestGathering(events, g, i) {
      var g :| LatestGathering(events, g, i);
      FlagsTellHistory(events, g, i);
      SinceStep(events, g, i);
      assert forall h :: LatestGathering(events, h, i) ==> h == g;
    } else {
      NoneLatest(events, i);
      FlagsTellHistory(events, -1, i);
    }
  }

  lemma {:induction false} NoneLatest(events: seq<Event>, n: nat)
    requires n <= |events|
    requires !exists g :: LatestGathering(events, g, n)
    ensures NoGathering(events, n)
  {
    if !NoGathering(events, n) {
      var g := n - 1;
      while !events[g].IceGathering?
        invariant 0 <= g < n
        invariant forall j :: g < j < n ==> !events[j].IceGathering?
        invariant exists j :: 0 <= j <= g && events[j].IceGathering?
        decreases g
      {
        g := g - 1;
      }
      assert LatestGathering(events, g, n);
    }
  }

  lemma BothStay(events: seq<Event>, g: int, m: nat, n: nat)
    requires m <= n <= |events| && -1 <= g && BothSince(events, g, m)
    ensures BothSince(events, g, n)
  {
    var a :| 0 <= a && g < a < m && events[a].StunComplete?;
    var b :| 0 <= b && g < b < m && events[b].TurnComplete?;
    assert StunSince(events, g, n) && TurnSince(events, g, n);
  }

  /** Hence no two ends without an `IceGathering` between them. */
  lemma AtMostOneEndPerGathering(events: seq<Event>, i: nat, k: nat)
    requires i < k < |events| && EndsAt(events, i) && EndsAt(events, k)
    ensures exists g :: i < g < k && events[g].IceGathering?
  {
    EndsExactlyWhenBothComplete(events, i);
    EndsExactlyWhenBothComplete(events, k);
    var g :| LatestGathering(events, g, i) && BothSince(events, g, i + 1);
    var h :| LatestGathering(events, h, k) && !BothSince(events, h, k);
    BothStay(events, g, i + 1, k);
    assert h != g;
  }

  // ---------------------------------------------------------------- candidates

  /** The candidates an event brings: those of the TCP transport unless only relays are wanted, or the one
      a gatherer found. */
  function Brought(e: Event): seq<Candidate> {
    match e
    case IceGathering(relayOnly, tcp) => if relayOnly then [] else tcp
    case StunCandidate(c) => [c]
    case TurnCandidate(c) => [c]
    case _ => []
  }

  /** Event `i` completes the pair of completions since the latest `IceGathering`. */
  ghost predicate EndDue(events: seq<Event>, i: nat)
    requires i < |events|
  {
    (events[i].StunComplete? || events[i].TurnComplete?) &&
    exists g :: LatestGathering(events, g, i) && !BothSince(events, g, i) && BothSince(events, g, i + 1)
  }

  /** What the core is handed in a whole run, told from the events alone. */
  ghost function Due(events: seq<Event>, n: nat): seq<Candidate>
    requires n <= |events|
  {
    if n == 0 then []
    else Due(events, n - 1) + Brought(events[n - 1]) + if EndDue(events, n - 1) then [EndOfCandidates] else []
  }

  /** What the driver hands to the core in a whole run. */
  function Handed(events: seq<Event>): seq<Candidate> {
    if events == [] then []
    else Handed(events[..|events| - 1]) + Added(Run(events[..|events| - 1]), events[|events| - 1])
  }

  lemma AddedIsDue(events: seq<Event>, i: nat)
    requires i < |events|
    ensures Added(Run(events[..i]), events[i])
         == Brought(events[i]) + if EndDue(events, i) then [EndOfCandidates] else []
  {
    EndsExactlyWhenBothComplete(events, i);
  }

  /** Every candidate brought is handed on, in order, with an end exactly where one is due. */
  lemma {:induction false} EverythingHanded(events: seq<Event>, n: nat)
    requires n <= |events|
    ensures Handed(events[..n]) == Due(events, n)
  {
    if n > 0 {
      EverythingHanded(events, n - 1);
      AddedIsDue(events, n - 1);
      assert events[..n][..n - 1] == events[..n - 1];
    }
  }

  /** The driver over a whole run of events. */
  method HandleAll(events: seq<Event>) returns (d: Driver)
    ensures fresh(d) && d.View() == Run(events) && d.localCandidates == Due(events, |events|)
  {
    d := new Driver();
    var i := 0;
    while i < |events|
      invariant 0 <= i <= |events| && d.View() == Run(events[..i]) && d.localCandidates == Handed(events[..i])
      invariant fresh(d)
    {
      assert events[..i + 1][..i] == events[..i];
      d.HandleGatherEvent(events[i]);
      i := i + 1;
    }
    assert events[..i] == events;
    EverythingHanded(events, |events|);
  }
}
