/**
 The two passes over Home Assistant's automations: switch the unflagged ones
 off while a level is active, and later back on only those the hub switched off.
 */
module EnergyAutomations {

  /** The automations enabled in Home Assistant and the flags table's remembered row. */
  datatype Home = Home(on: set<string>, remembered: set<string>)

  /** How the outside answers one enforce pass. */
  datatype Answers = Answers(flagged: set<string>, refused: set<string>, wanted: nat)

  /** A turn_off is due: enabled, not already owed a restore and not flagged. */
  predicate Due(h: Home, flagged: set<string>, a: string) {
    a in h.on && a !in h.remembered && a !in flagged
  }

  /** Those of states whose turn_off is due and accepted. */
  function Hits(h: Home, ans: Answers, states: seq<string>): set<string> {
    set a | a in states && Due(h, ans.flagged, a) && a !in ans.refused
  }

  /** How often still_wanted is asked over states. */
  function Asks(h: Home, flagged: set<string>, states: seq<string>): nat {
    if states == [] then 0
    else Asks(h, flagged, states[..|states| - 1]) + (if Due(h, flagged, states[|states| - 1]) then 1 else 0)
  }

  /** The pass stops before the first due automation whose still_wanted says no. */
  predicate StopsAt(h: Home, ans: Answers, states: seq<string>, n: nat) {
    && n <= |states|
    && Asks(h, ans.flagged, states[..n]) <= ans.wanted
    && (n < |states| ==> Asks(h, ans.flagged, states[..n]) == ans.wanted && Due(h, ans.flagged, states[n]))
  }

  function AfterEnforce(h: Home, hit: set<string>): Home {
    Home(h.on - hit, h.remembered + hit)
  }

  function AfterRestore(h: Home, refused: set<string>): Home {
    Home(h.on + (h.remembered - refused), h.remembered * refused)
  }

  class AutomationManager {
    var on: set<string>
    var remembered: set<string>

    constructor (on: set<string>, remembered: set<string>)
      ensures Now() == Home(on, remembered)
    {
      this.on := on;
      this.remembered := remembered;
    }

    function Now(): Home reads this { Home(on, remembered) }

    /** states: every automation, in entity id order. stopped: how far the pass got. */
    method EnforceActive(states: seq<string>, ans: Answers) returns (stopped: nat)
      requires forall i, j :: 0 <= i < j < |states| ==> states[i] != states[j]
      modifies this
      ensures StopsAt(old(Now()), ans, states, stopped)
      ensures Now() == AfterEnforce(old(Now()), Hits(old(Now()), ans, states[..stopped]))
    {
      ghost var before := Now();
      var snapshot := on;
      var owed := remembered;
      var asked := 0;
      stopped := 0;
      assert states[..0] == [];
      while stopped < |states|
        invariant stopped <= |states|
        invariant owed == remembered
        invariant asked == Asks(before, ans.flagged, states[..stopped]) <= ans.wanted
        invariant Now() == AfterEnforce(before, Hits(before, ans, states[..stopped]))
      {
        var a := states[stopped];
        assert states[..stopped + 1][..stopped] == states[..stopped];
        assert a !in states[..stopped];
        HitsGrow(before, ans, states, stopped);
        if a in snapshot && a !in owed && a !in ans.flagged {
          if asked == ans.wanted {
            return;
          }
          asked := asked + 1;
          if a !in ans.refused {
            on := on - {a};
            owed := owed + {a};
            remembered := owed;
          }
        }
        stopped := stopped + 1;
      }
      assert states[..stopped] == states;
    }

    /** Failed switch-ons stay owed. */
    method Restore(refused: set<string>)
      modifies this
      ensures Now() == AfterRestore(old(Now()), refused)
    {
      ghost var before := Now();
      var pending := remembered;
      var todo := remembered;
      while todo != {}
        invariant todo <= before.remembered && pending == remembered
        invariant remembered == before.remembered - ((before.remembered - todo) - refused)
        invariant on == before.on + ((before.remembered - todo) - refused)
        decreases todo
      {
        var a :| a in todo;
        todo := todo - {a};
        if a !in refused {
          on := on + {a};
          pending := pending - {a};
          remembered := pending;
        }
      }
    }
  }

  lemma HitsGrow(h: Home, ans: Answers, states: seq<string>, n: nat)
    requires n < |states|
    ensures Hits(h, ans, states[..n + 1])
         == Hits(h, ans, states[..n]) + (if Due(h, ans.flagged, states[n]) && states[n] !in ans.refused then {states[n]} else {})
  {
    assert states[..n + 1] == states[..n] + [states[n]];
  }

  // -- what one pass does --------------------------------------------------------------

  /** The pass switches off and remembers an automation it comes to if it is on, not remembered, not flagged and not refused; nothing else changes. */
  lemma EnforceExactly(h: Home, ans: Answers, states: seq<string>, stopped: nat, a: string)
    requires StopsAt(h, ans, states, stopped)
    ensures var h' := AfterEnforce(h, Hits(h, ans, states[..stopped]));
      var hit := a in h.on && a in states[..stopped] && a !in h.remembered && a !in ans.flagged && a !in ans.refused;
      (a in h'.on <==> a in h.on && !hit) && (a in h'.remembered <==> a in h.remembered || hit)
  {}

  /** Superseded before it asks, a pass changes nothing. */
  lemma UnwantedPassChangesNothing(h: Home, ans: Answers, states: seq<string>, stopped: nat)
    requires StopsAt(h, ans, states, stopped) && ans.wanted == 0
    ensures AfterEnforce(h, Hits(h, ans, states[..stopped])) == h
  {
    NoneDue(h, ans.flagged, states[..stopped]);
    assert Hits(h, ans, states[..stopped]) == {};
  }

  lemma {:induction false} NoneDue(h: Home, flagged: set<string>, states: seq<string>)
    requires Asks(h, flagged, states) == 0
    ensures forall a :: a in states ==> !Due(h, flagged, a)
  {
    if states != [] {
      NoneDue(h, flagged, states[..|states| - 1]);
      assert states == states[..|states| - 1] + [states[|states| - 1]];
    }
  }

  /** Every pass finds a flagged. */
  predicate AlwaysFlagged(passes: seq<Pass>, a: string) {
    forall i :: 0 <= i < |passes| && passes[i].Enforce? ==> a in passes[i].answers.flagged
  }

  /** An automation that works during Energy Saving stays on, whatever passes and restores come. */
  lemma {:induction false} FlaggedStaysOn(h: Home, passes: seq<Pass>, a: string)
    requires LegalPasses(h, passes) && AlwaysFlagged(passes, a) && a in h.on
    ensures a in AfterPasses(h, passes).on
    decreases |passes|
  {
    if passes != [] {
      if passes[0].Enforce? { EnforceExactly(h, passes[0].answers, passes[0].states, passes[0].stopped, a); }
      FlaggedStaysOn(AfterPass(h, passes[0]), passes[1..], a);
    }
  }

  // -- conservation -----------------------------------------------------------------

  datatype Pass = Enforce(states: seq<string>, answers: Answers, stopped: nat) | Restored(refused: set<string>)

  predicate LegalPasses(h: Home, passes: seq<Pass>)
    decreases |passes|
  {
    passes == [] ||
    (match passes[0]
     case Enforce(states, ans, stopped) => StopsAt(h, ans, states, stopped) && LegalPasses(AfterPass(h, passes[0]), passes[1..])
     case Restored(_) => LegalPasses(AfterPass(h, passes[0]), passes[1..]))
  }

  function AfterPass(h: Home, p: Pass): Home {
    match p
    case Enforce(states, ans, stopped) => AfterEnforce(h, Hits(h, ans, states[..if stopped <= |states| then stopped else 0]))
    case Restored(refused) => AfterRestore(h, refused)
  }

  function AfterPasses(h: Home, passes: seq<Pass>): Home
    decreases |passes|
  {
    if passes == [] then h else AfterPasses(AfterPass(h, passes[0]), passes[1..])
  }

  /** Enabled or owed, never both: no sequence of passes loses or invents an automation. */
  lemma {:induction false} PassesConserveAutomations(h: Home, passes: seq<Pass>)
    requires LegalPasses(h, passes) && h.on !! h.remembered
    ensures var h' := AfterPasses(h, passes);
      h'.on + h'.remembered == h.on + h.remembered && h'.on !! h'.remembered
    decreases |passes|
  {
    if passes != [] {
      var mid := AfterPass(h, passes[0]);
      assert mid.on + mid.remembered == h.on + h.remembered && mid.on !! mid.remembered;
      PassesConserveAutomations(mid, passes[1..]);
    }
  }

  /** However the passes before it went, a restore whose calls all succeed undoes them. */
  lemma RestoreUndoesEveryPass(h: Home, passes: seq<Pass>)
    requires LegalPasses(h, passes) && h.remembered == {}
    ensures AfterRestore(AfterPasses(h, passes), {}) == h
  {
    PassesConserveAutomations(h, passes);
  }

  /** A pass that is wanted throughout leaves on only what is flagged or refused. */
  lemma WantedPassSwitchesAllDue(h: Home, ans: Answers, states: seq<string>, stopped: nat)
    requires StopsAt(h, ans, states, stopped) && ans.wanted >= |states|
    requires h.on <= (set a | a in states)
    ensures AfterEnforce(h, Hits(h, ans, states[..stopped])).on <= h.remembered + ans.flagged + ans.refused
  {
    AsksAtMost(h, ans.flagged, states[..stopped]);
    assert states[..stopped] == states;
  }

  lemma {:induction false} AsksAtMost(h: Home, flagged: set<string>, states: seq<string>)
    ensures Asks(h, flagged, states) <= |states|
  {
    if states != [] { AsksAtMost(h, flagged, states[..|states| - 1]); }
  }
}
