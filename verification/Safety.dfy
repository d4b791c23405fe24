/** Every action keeps the invariant, so every reachable world has it. */
module Safety {
  import opened Authority
  import opened Protocol
  import opened Runs
  import opened Invariant
  import opened RequestSteps
  import opened OtherSteps

  lemma GenesisHasInv(c: Config)
    ensures Inv(c, GENESIS)
  {
  }

  lemma InvNumbers(c: Config, s: World)
    requires Inv(c, s)
    ensures WellNumbered(s)
  {
  }

  predicate OfRequest(a: Action) {
    a.Arrive? || a.Proceed? || a.Crash?
  }

  lemma RequestKeepsInv(c: Config, s: World, a: Action)
    requires Inv(c, s) && WellNumbered(s) && Enabled(c, s, a) && OfRequest(a)
    ensures Inv(c, Step(c, s, a))
  {
    match a
    case Arrive(key, owner) => ArrivingKeepsInv(c, s, key, owner);
    case Proceed(i, x) => WorkKeepsInv(c, s, i, x);
    case Crash(i) => CrashingKeepsInv(c, s, i);
  }

  predicate OfService(a: Action) {
    a.ServerTakes? || a.ServerRejects? || a.OperatorEdits?
  }

  lemma ServiceKeepsInv(c: Config, s: World, a: Action)
    requires Inv(c, s) && WellNumbered(s) && Enabled(c, s, a) && OfService(a)
    ensures Inv(c, Step(c, s, a))
  {
    match a
    case ServerTakes(i, live) => TakingKeepsInv(c, s, i, live);
    case ServerRejects(i) => RejectingKeepsInv(c, s, i);
    case OperatorEdits(target, doc) => EditingKeepsInv(c, s, target, doc);
  }

  predicate OfCloser(a: Action) {
    a.ArriveToClose? || a.ProceedToClose?
  }

  lemma CloserKeepsInv(c: Config, s: World, a: Action)
    requires Inv(c, s) && WellNumbered(s) && Enabled(c, s, a) && OfCloser(a)
    ensures Inv(c, Step(c, s, a))
  {
    if a.ArriveToClose? {
      ArrivingToCloseKeepsInv(c, s, a.key);
    } else if s.closers[a.closer].pc == CClose {
      ClosingKeepsInv(c, s, a.closer);
    } else {
      LookingOnKeepsInv(c, s, a.closer, a.input);
    }
  }

  lemma ResolutionKeepsInv(c: Config, s: World, a: Action)
    requires Inv(c, s) && WellNumbered(s) && Enabled(c, s, a) && a.Resolve?
    ensures Inv(c, Step(c, s, a))
  {
    ResolvingKeepsInv(c, s, a.key, a.receipt);
  }

  predicate OfIncident(a: Action) {
    a.OpenIncident? || a.MoveIncident?
  }

  lemma IncidentKeepsInv(c: Config, s: World, a: Action)
    requires Inv(c, s) && WellNumbered(s) && Enabled(c, s, a) && OfIncident(a)
    ensures Inv(c, Step(c, s, a))
  {
    if a.OpenIncident? {
      OpeningKeepsInv(c, s, a.incident);
    } else {
      MovingKeepsInv(c, s, a.incident, a.to);
    }
  }

  predicate OfControlPlane(a: Action) {
    !OfRequest(a) && !OfService(a) && !OfCloser(a)
  }

  lemma ControlPlaneActionKeepsInv(c: Config, s: World, a: Action)
    requires Inv(c, s) && WellNumbered(s) && Enabled(c, s, a) && OfControlPlane(a)
    ensures Inv(c, Step(c, s, a))
  {
    if a.Resolve? {
      ResolutionKeepsInv(c, s, a);
    } else if OfIncident(a) {
      IncidentKeepsInv(c, s, a);
    } else {
      RevisingKeepsInv(c, s, a);
    }
  }

  lemma StepKeepsInv(c: Config, s: World, a: Action)
    requires Inv(c, s) && WellNumbered(s) && Enabled(c, s, a)
    ensures Inv(c, Step(c, s, a))
  {
    if OfRequest(a) {
      RequestKeepsInv(c, s, a);
    } else if OfService(a) {
      ServiceKeepsInv(c, s, a);
    } else if OfCloser(a) {
      CloserKeepsInv(c, s, a);
    } else {
      ControlPlaneActionKeepsInv(c, s, a);
    }
  }

  lemma {:induction false} RunKeepsInv(c: Config, s: World, actions: seq<Action>, t: World)
    requires Inv(c, s) && Run(c, s, actions, t)
    ensures Inv(c, t)
    decreases |actions|
  {
    RunStarts(c, s, actions, t);
    if actions != [] {
      StepKeepsInv(c, s, actions[0]);
      RunKeepsInv(c, Step(c, s, actions[0]), actions[1..], t);
    }
  }

  lemma EveryReachableWorldHasInv(c: Config, s: World)
    requires Reachable(c, s)
    ensures Inv(c, s)
  {
    var actions :| Run(c, GENESIS, actions, s);
    GenesisHasInv(c);
    RunKeepsInv(c, GENESIS, actions, s);
  }
}
