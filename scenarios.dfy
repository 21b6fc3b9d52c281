/**
 * The runs the repository's tests walk through, replayed on the model: the schemas the tests
 * build, the state each `next(input)` commits to, and the machines driven call by call through
 * the same sequence of inputs and unchecked moves.
 */
module Scenarios {
  import opened Results
  import opened Schema
  import opened Routing
  import opened KnownStates
  import MataMachine
  import MataAutomata
  import NavMachine

  /** A key of the schema that is not the empty string is a known state, looked up as itself. */
  lemma KnownAt<T>(t: Table<T>, i: nat)
    requires i < |t.rules| && t.rules[i].0 != ""
    ensures IsKnownState(StatesLookup(TopKeys(t)), t.rules[i].0)
    ensures StatesLookup(TopKeys(t))[t.rules[i].0] == t.rules[i].0
  {
    assert TopKeys(t)[i] == t.rules[i].0;
    KnownStateIsTopKey(t, t.rules[i].0);
    StatesLookupSpec(TopKeys(t));
  }

  // ---------------------------------------------------------------- the sink (src/mata.ts)

  datatype SinkControls = SinkControls(tap: int, waterVolume: int, capacity: int, drainable: bool)

  /** The sink schema: filling from any state while the tap runs, then full or draining, then empty. */
  const Sink: Table<SinkControls> := Table(
    [ ("empty", []),
      ("running", [ ("full", Pred((s: SinkControls) => s.tap == 0 && !s.drainable)),
                    ("draining", Pred((s: SinkControls) => s.tap == 0 && s.drainable)) ]),
      ("full", [ ("draining", Pred((s: SinkControls) => s.drainable)) ]),
      ("draining", [ ("empty", Continue) ]) ],
    Some([ ("running", Pred((s: SinkControls) => s.tap > 0)) ]))

  /** `init: (states) => states.empty`; a missing entry reads as the falsy empty string. */
  function SinkInit(states: map<State, State>): State
  {
    if "empty" in states then states["empty"] else ""
  }

  /** The controls object the test mutates, with volume and capacity left at zero. */
  function Controls(tap: int, drainable: bool): SinkControls
  {
    SinkControls(tap, 0, 0, drainable)
  }

  lemma SinkGroups()
    ensures Rules(Sink, "empty") == []
    ensures Rules(Sink, "running") == Sink.rules[1].1
    ensures Rules(Sink, "full") == Sink.rules[2].1
    ensures Rules(Sink, "draining") == Sink.rules[3].1
  {
    assert Sink.rules[0].0 == "empty" && Sink.rules[1].0 == "running";
    assert Sink.rules[2].0 == "full" && Sink.rules[3].0 == "draining";
    assert EntryIndex(Sink.rules, "empty") == 0;
    assert EntryIndex(Sink.rules, "running") == 1;
    assert EntryIndex(Sink.rules, "full") == 2;
    assert EntryIndex(Sink.rules, "draining") == 3;
  }

  /** The wildcard fires exactly while the tap runs. */
  lemma SinkWildcard(c: SinkControls)
    ensures FirstMatch(Wildcard(Sink), c) == if c.tap > 0 then Some("running") else None
  {
    assert Wildcard(Sink) == [ ("running", Pred((s: SinkControls) => s.tap > 0)) ];
    assert Holds(Wildcard(Sink)[0].1, c) == (c.tap > 0);
  }

  /** While the tap runs, every state goes to `running`: the wildcard is tried first. */
  lemma SinkTapRunning(from: State, c: SinkControls)
    requires c.tap > 0
    ensures Step(Sink, from, c) == Some("running")
  {
    SinkWildcard(c);
  }

  /** With the tap closed, a running sink drains when it can and fills up when it cannot. */
  lemma SinkRunning(c: SinkControls)
    requires c.tap <= 0
    ensures Step(Sink, "running", c) == if c.tap < 0 then None else Some(if c.drainable then "draining" else "full")
  {
    SinkWildcard(c);
    SinkGroups();
    assert Holds(Sink.rules[1].1[0].1, c) == (c.tap == 0 && !c.drainable);
    assert Holds(Sink.rules[1].1[1].1, c) == (c.tap == 0 && c.drainable);
  }

  /** With the tap closed, a full sink drains once it can. */
  lemma SinkFull(c: SinkControls)
    requires c.tap <= 0
    ensures Step(Sink, "full", c) == if c.drainable then Some("draining") else None
  {
    SinkWildcard(c);
    SinkGroups();
    assert Holds(Sink.rules[2].1[0].1, c) == c.drainable;
  }

  /** With the tap closed, a draining sink empties on the next call (`Continue`). */
  lemma SinkDraining(c: SinkControls)
    requires c.tap <= 0
    ensures Step(Sink, "draining", c) == Some("empty")
  {
    SinkWildcard(c);
    SinkGroups();
  }

  /** With the tap closed, an empty sink stays empty: its group has no rules. */
  lemma SinkEmpty(c: SinkControls)
    requires c.tap <= 0
    ensures Step(Sink, "empty", c) == None
  {
    SinkWildcard(c);
    SinkGroups();
  }

  /**
   * The `next` calls of the sink test: the tap fills it, a second call with the tap still open
   * moves `running` to `running` again through the wildcard, closing the tap drains it, and a
   * sink that cannot drain fills up, then drains once it can.
   */
  lemma SinkSteps()
    ensures Step(Sink, "empty", Controls(1, true)) == Some("running")
    ensures Step(Sink, "running", Controls(1, true)) == Some("running")
    ensures Step(Sink, "running", Controls(0, true)) == Some("draining")
    ensures Step(Sink, "draining", Controls(0, true)) == Some("empty")
    ensures Step(Sink, "empty", Controls(1, false)) == Some("running")
    ensures Step(Sink, "running", Controls(0, false)) == Some("full")
    ensures Step(Sink, "full", Controls(0, true)) == Some("draining")
  {
    SinkTapRunning("empty", Controls(1, true));
    SinkTapRunning("running", Controls(1, true));
    SinkRunning(Controls(0, true));
    SinkDraining(Controls(0, true));
    SinkTapRunning("empty", Controls(1, false));
    SinkRunning(Controls(0, false));
    SinkFull(Controls(0, true));
  }

  /** The sink's initial state is `empty`, and the constructor's check lets it through. */
  lemma SinkStart()
    ensures SinkInit(StatesLookup(TopKeys(Sink))) == "empty"
    ensures IsKnownState(StatesLookup(TopKeys(Sink)), "empty")
  {
    KnownAt(Sink, 0);
  }

  /**
   * The sink test on `Machine`: construct it, then feed the test's seven inputs; the states it
   * is in, from construction on, are the ones the test expects.
   */
  method SinkRun() returns (r: Result<seq<State>, InitError>)
    ensures r == Ok(["empty", "running", "running", "draining", "empty", "running", "full", "draining"])
  {
    SinkStart();
    var created := MataMachine.Machine.Create(Sink, SinkInit);
    assert created.Ok?;
    var sink := created.value;
    SinkSteps();
    ghost var probes: (nat, nat);
    var s0 := sink.state;
    var s1, s2, s3, s4, s5, s6, s7;
    s1, probes := sink.Next(Controls(1, true));
    s2, probes := sink.Next(Controls(1, true));
    s3, probes := sink.Next(Controls(0, true));
    s4, probes := sink.Next(Controls(0, true));
    s5, probes := sink.Next(Controls(1, false));
    s6, probes := sink.Next(Controls(0, false));
    s7, probes := sink.Next(Controls(0, true));
    r := Ok([s0, s1, s2, s3, s4, s5, s6, s7]);
  }

  // ---------------------------------------------------------------- the navigation flow (src/mata.ts, src/nav-machine.ts)

  datatype UserState = UserState(authed: bool, gamesPlayed: int)
  datatype GameState = GameState(finished: bool, dead: bool)
  datatype NavState = NavState(user: UserState, game: GameState, forceTutorial: bool, signOut: bool)

  // The navigation test's guards.
  predicate NoGamesYet(s: NavState) { s.user.gamesPlayed < 1 }
  predicate HasPlayed(s: NavState) { s.user.gamesPlayed > 0 }
  predicate TutorialDone(s: NavState) { s.user.gamesPlayed > 0 && !s.forceTutorial }
  predicate Finished(s: NavState) { s.game.finished }
  predicate Unfinished(s: NavState) { !s.game.finished }
  predicate Revived(s: NavState) { !s.game.finished && !s.game.dead }
  predicate TutorialForced(s: NavState) { s.forceTutorial }
  predicate SigningOut(s: NavState) { s.signOut }
  predicate Dead(s: NavState) { s.game.dead }

  /** The navigation schema: a first game goes through the tutorial, a game runs its stages, and any screen can be left for the tutorial, sign-out or game over. */
  const Navigation: Table<NavState> := Table(
    [ ("welcome", [ ("tutorial", Pred(NoGamesYet)), ("game", Pred(HasPlayed)) ]),
      ("tutorial", [ ("game", Pred(TutorialDone)) ]),
      ("game", [ ("stageOne", Continue) ]),
      ("stageOne", [ ("stageTwo", Continue) ]),
      ("stageTwo", [ ("stageThree", Continue) ]),
      ("stageThree", [ ("view", Pred(Finished)) ]),
      ("view", [ ("game", Pred(Unfinished)) ]),
      ("gameOver", [ ("game", Pred(Revived)) ]) ],
    Some([ ("tutorial", Pred(TutorialForced)), ("signOut", Pred(SigningOut)), ("gameOver", Pred(Dead)) ]))

  /** `init: (states) => states.welcome`. */
  function NavInit(states: map<State, State>): State
  {
    if "welcome" in states then states["welcome"] else ""
  }

  /** The state object the test mutates: never authed, never signing out. */
  function Player(gamesPlayed: int, finished: bool, dead: bool, forceTutorial: bool): NavState
  {
    NavState(UserState(false, gamesPlayed), GameState(finished, dead), forceTutorial, false)
  }

  /** The wildcard group, read in key order: forced tutorial, then sign-out, then death. */
  lemma NavWildcard(s: NavState)
    ensures FirstMatch(Wildcard(Navigation), s) ==
      if s.forceTutorial then Some("tutorial")
      else if s.signOut then Some("signOut")
      else if s.game.dead then Some("gameOver")
      else None
  {
    var w := Wildcard(Navigation);
    assert w == Navigation.any.value;
    assert Holds(w[0].1, s) == s.forceTutorial;
    assert Holds(w[1].1, s) == s.signOut;
    assert Holds(w[2].1, s) == s.game.dead;
    assert w[1..][1..] == [w[2]];
  }

  /** No wildcard guard holds: neither a forced tutorial, nor a sign-out, nor death. */
  predicate NoGlobalRoute(s: NavState)
  {
    !s.forceTutorial && !s.signOut && !s.game.dead
  }

  /** When a wildcard guard holds, it decides the step whatever the current screen. */
  lemma NavGlobalWins(from: State, s: NavState)
    requires !NoGlobalRoute(s)
    ensures Step(Navigation, from, s) == FirstMatch(Wildcard(Navigation), s) != None
  {
    NavWildcard(s);
  }

  /** The welcome screen leads to the tutorial before any game is played, and to the game after. */
  lemma NavWelcome(s: NavState)
    requires NoGlobalRoute(s)
    ensures Step(Navigation, "welcome", s) == Some(if s.user.gamesPlayed < 1 then "tutorial" else "game")
  {
    NavWildcard(s);
    assert Rules(Navigation, "welcome") == Navigation.rules[0].1;
    assert Holds(Navigation.rules[0].1[0].1, s) == (s.user.gamesPlayed < 1);
    assert Holds(Navigation.rules[0].1[1].1, s) == (s.user.gamesPlayed > 0);
  }

  /** The tutorial leads to the game once a game has been played, and otherwise stays. */
  lemma NavTutorial(s: NavState)
    requires NoGlobalRoute(s)
    ensures Step(Navigation, "tutorial", s) == if s.user.gamesPlayed > 0 then Some("game") else None
  {
    NavWildcard(s);
    assert Rules(Navigation, "tutorial") == Navigation.rules[1].1;
  }

  /** The game enters its first stage through a `Continue` rule, whatever the input. */
  lemma NavGame(s: NavState)
    requires NoGlobalRoute(s)
    ensures Step(Navigation, "game", s) == Some("stageOne")
  {
    NavWildcard(s);
    assert Rules(Navigation, "game") == Navigation.rules[2].1;
  }

  /** The first stage leads to the second through a `Continue` rule. */
  lemma NavStageOne(s: NavState)
    requires NoGlobalRoute(s)
    ensures Step(Navigation, "stageOne", s) == Some("stageTwo")
  {
    NavWildcard(s);
    assert Rules(Navigation, "stageOne") == Navigation.rules[3].1;
  }

  /** The second stage leads to the third through a `Continue` rule. */
  lemma NavStageTwo(s: NavState)
    requires NoGlobalRoute(s)
    ensures Step(Navigation, "stageTwo", s) == Some("stageThree")
  {
    NavWildcard(s);
    assert Rules(Navigation, "stageTwo") == Navigation.rules[4].1;
  }

  /** The last stage shows the result view once the game is finished, and otherwise stays. */
  lemma NavStageThree(s: NavState)
    requires NoGlobalRoute(s)
    ensures Step(Navigation, "stageThree", s) == if s.game.finished then Some("view") else None
  {
    NavWildcard(s);
    assert Rules(Navigation, "stageThree") == Navigation.rules[5].1;
  }

  /** The result view leads back to the game once the game is no longer finished. */
  lemma NavView(s: NavState)
    requires NoGlobalRoute(s)
    ensures Step(Navigation, "view", s) == if s.game.finished then None else Some("game")
  {
    NavWildcard(s);
    assert Rules(Navigation, "view") == Navigation.rules[6].1;
  }

  /**
   * The `next` calls of the navigation test: tutorial before the first game, the game's stages in
   * order, the result view and back, game over through the wildcard, and a forced tutorial taking
   * priority over the current screen's own route.
   */
  lemma NavSteps()
    ensures Step(Navigation, "welcome", Player(0, false, false, false)) == Some("tutorial")
    ensures Step(Navigation, "tutorial", Player(1, false, false, false)) == Some("game")
    ensures Step(Navigation, "game", Player(1, false, false, false)) == Some("stageOne")
    ensures Step(Navigation, "stageOne", Player(1, false, false, false)) == Some("stageTwo")
    ensures Step(Navigation, "stageTwo", Player(1, false, false, false)) == Some("stageThree")
    ensures Step(Navigation, "stageThree", Player(1, true, false, false)) == Some("view")
    ensures Step(Navigation, "view", Player(1, false, false, false)) == Some("game")
    ensures Step(Navigation, "game", Player(1, false, true, false)) == Some("gameOver")
    ensures Step(Navigation, "welcome", Player(1, false, false, false)) == Some("game")
    ensures Step(Navigation, "game", Player(1, false, false, true)) == Some("tutorial")
  {
    var newcomer, played := Player(0, false, false, false), Player(1, false, false, false);
    NavWelcome(newcomer);
    NavTutorial(played);
    NavGame(played);
    NavStageOne(played);
    NavStageTwo(played);
    NavStageThree(Player(1, true, false, false));
    NavView(played);
    NavGlobalWins("game", Player(1, false, true, false));
    NavWildcard(Player(1, false, true, false));
    NavWelcome(played);
    NavGlobalWins("game", Player(1, false, false, true));
    NavWildcard(Player(1, false, false, true));
  }

  /** The navigation flow's initial state is `welcome`, and the constructor's check lets it through. */
  lemma NavStart()
    ensures NavInit(StatesLookup(TopKeys(Navigation))) == "welcome"
    ensures IsKnownState(StatesLookup(TopKeys(Navigation)), "welcome")
  {
    KnownAt(Navigation, 0);
  }

  /**
   * The navigation test on `Machine`: eight `next` calls, an unchecked `transition('welcome')`,
   * then three more; the states it is in after each call are the ones the test expects.
   */
  method NavRun() returns (r: Result<seq<State>, InitError>)
    ensures r == Ok(["welcome", "tutorial", "game", "stageOne", "stageTwo", "stageThree", "view", "game",
                     "gameOver", "welcome", "game", "tutorial", "game"])
  {
    NavStart();
    var created := MataMachine.Machine.Create(Navigation, NavInit);
    assert created.Ok?;
    var visited := NavCalls(created.value);
    r := Ok(visited);
  }

  /** The calls of the navigation test on a `Machine` in its initial state, and the states it is in after each. */
  method NavCalls(nav: MataMachine.Machine<NavState>) returns (visited: seq<State>)
    requires nav.machine == Navigation && nav.state == "welcome"
    modifies nav
    ensures visited == ["welcome", "tutorial", "game", "stageOne", "stageTwo", "stageThree", "view", "game",
                        "gameOver", "welcome", "game", "tutorial", "game"]
  {
    NavSteps();
    ghost var probes: (nat, nat);
    var s0 := nav.state;
    var s1, s2, s3, s4, s5, s6, s7, s8, s9, s10, s11, s12;
    s1, probes := nav.Next(Player(0, false, false, false));
    s2, probes := nav.Next(Player(1, false, false, false));
    s3, probes := nav.Next(Player(1, false, false, false));
    s4, probes := nav.Next(Player(1, false, false, false));
    s5, probes := nav.Next(Player(1, false, false, false));
    s6, probes := nav.Next(Player(1, true, false, false));
    s7, probes := nav.Next(Player(1, false, false, false));
    s8, probes := nav.Next(Player(1, false, true, false));
    s9 := nav.Transition("welcome", None);
    s10, probes := nav.Next(Player(1, false, false, false));
    s11, probes := nav.Next(Player(1, false, false, true));
    s12, probes := nav.Next(Player(1, false, false, false));
    visited := [s0, s1, s2, s3, s4, s5, s6, s7, s8, s9, s10, s11, s12];
  }

  /**
   * The same test on the older `Nav` class: constructed with `welcome` and moved back there with
   * `to('welcome')`; the states it is in after each call are the ones the test expects.
   */
  method NavRunOnNav() returns (visited: seq<State>)
    ensures visited == ["welcome", "tutorial", "game", "stageOne", "stageTwo", "stageThree", "view", "game",
                        "gameOver", "welcome", "game", "tutorial", "game"]
  {
    var nav := new NavMachine.Nav("welcome", Navigation);
    NavSteps();
    ghost var probes: (nat, nat);
    var s0 := nav.state;
    var s1, s2, s3, s4, s5, s6, s7, s8, s9, s10, s11, s12;
    s1, probes := nav.Next(Player(0, false, false, false));
    s2, probes := nav.Next(Player(1, false, false, false));
    s3, probes := nav.Next(Player(1, false, false, false));
    s4, probes := nav.Next(Player(1, false, false, false));
    s5, probes := nav.Next(Player(1, false, false, false));
    s6, probes := nav.Next(Player(1, true, false, false));
    s7, probes := nav.Next(Player(1, false, false, false));
    s8, probes := nav.Next(Player(1, false, true, false));
    s9 := nav.To("welcome");
    s10, probes := nav.Next(Player(1, false, false, false));
    s11, probes := nav.Next(Player(1, false, false, true));
    s12, probes := nav.Next(Player(1, false, false, false));
    visited := [s0, s1, s2, s3, s4, s5, s6, s7, s8, s9, s10, s11, s12];
  }

  // ---------------------------------------------------------------- the game (packages/mata/src/mata.ts)

  datatype Lives = Lives(lives: int, score: int)

  /** The game schema: stages by score, with a `Never` route to `lost` and a wildcard route to `lost` when no life is left. */
  const Game: Table<Lives> := Table(
    [ ("start", [ ("stageOne", Continue), ("lost", Never) ]),
      ("stageOne", [ ("stageTwo", Pred((p: Lives) => p.score > 100)) ]),
      ("stageTwo", [ ("won", Pred((p: Lives) => p.score > 200)) ]),
      ("won", [ ("start", Continue), ("lost", Never) ]),
      ("lost", [ ("start", Continue) ]) ],
    Some([ ("lost", Pred((p: Lives) => p.lives == 0)) ]))

  /** With no lives left, every state goes to `lost`: the wildcard is tried first. */
  lemma GameNoLives(from: State, p: Lives)
    requires p.lives == 0
    ensures Step(Game, from, p) == Some("lost")
  {
    assert Holds(Wildcard(Game)[0].1, p);
  }

  /** With lives left, `start` goes to the first stage (`Continue`); its `Never` rule to `lost` is never taken. */
  lemma GameStart(p: Lives)
    requires p.lives != 0
    ensures Step(Game, "start", p) == Some("stageOne")
  {
    assert !Holds(Wildcard(Game)[0].1, p);
    assert Rules(Game, "start") == Game.rules[0].1;
  }

  /**
   * Read with shadowing, `start` goes to the first stage whatever the input: its own rule for
   * `lost` (a `Never`) hides the wildcard rule for `lost`.
   */
  lemma GameStartShadowed(p: Lives)
    ensures StepShadowed(Game, "start", p) == Some("stageOne")
  {
    assert Rules(Game, "start") == Game.rules[0].1;
    assert Keys(Rules(Game, "start")) == ["stageOne", "lost"];
    assert Unshadowed(Wildcard(Game), ["stageOne", "lost"]) == [];
  }

  /** `stageOne` has no rule for `lost`, so shadowing leaves its step alone. */
  lemma GameStageOneShadowed(p: Lives)
    ensures StepShadowed(Game, "stageOne", p) == Step(Game, "stageOne", p)
  {
    assert Rules(Game, "stageOne") == Game.rules[1].1;
    ShadowedAgrees(Game, "stageOne", p);
  }

  /**
   * The game test's `next` calls. As written, the wildcard is tried first, so with no lives left
   * `start` goes to `lost`; the test expects `stageOne`, which is what the shadowing reading
   * gives, because `start` has its own (`Never`) rule for `lost`.
   */
  lemma GameSteps()
    ensures Step(Game, "start", Lives(10, 0)) == Some("stageOne")
    ensures Step(Game, "stageOne", Lives(0, 0)) == Some("lost")
    ensures Step(Game, "start", Lives(0, 0)) == Some("lost")
    ensures StepShadowed(Game, "start", Lives(10, 0)) == Some("stageOne")
    ensures StepShadowed(Game, "stageOne", Lives(0, 0)) == Some("lost")
    ensures StepShadowed(Game, "start", Lives(0, 0)) == Some("stageOne")
  {
    GameStart(Lives(10, 0));
    GameNoLives("stageOne", Lives(0, 0));
    GameNoLives("start", Lives(0, 0));
    GameStartShadowed(Lives(10, 0));
    GameStageOneShadowed(Lives(0, 0));
    GameStartShadowed(Lives(0, 0));
  }

  /**
   * The game test on `Automata`: two `next` calls, `force(start)`, and a third `next`. The model
   * reaches `lost` on the third call where the test expects `stageOne`.
   */
  method GameRun() returns (r: Result<seq<State>, InitError>)
    ensures r == Ok(["start", "stageOne", "lost", "start", "lost"])
  {
    var schematic := new MataAutomata.Machine(Game);
    KnownAt(Game, 0);
    var created := schematic.Init("start");
    assert created.Ok?;
    var game := created.value;
    GameSteps();
    ghost var probes: (nat, nat);
    var s0 := game.current;
    var s1, s2, s3, s4;
    s1, probes := game.Next(Lives(10, 0));
    s2, probes := game.Next(Lives(0, 0));
    s3 := game.Force("start");
    s4, probes := game.Next(Lives(0, 0));
    r := Ok([s0, s1, s2, s3, s4]);
  }
}
