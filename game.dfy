/**
 * The game component: its phases, the per-difficulty high-score store, the
 * touch/click filter, sequence generation, the timed reveal and the
 * component state as a class whose methods are the event handlers and timer
 * callbacks. A timer callback is a method the environment calls later; what
 * the callback captured when it was scheduled travels in a Deal value.
 */
module Game {
  import opened Progression
  import opened Validation

  datatype Option<T> = None | Some(value: T)

  /** The screens of the game. */
  datatype Phase =
    | Home | HowToPlay | DifficultySelect | DifficultyConfirm
    | Countdown | Showing | Playing | GameOver

  /** The phase changes of the ordinary flow: the screen buttons, the
      countdown, a reveal and its end, a tap, and the deal of the next level
      from playing or game over. A stale deal can still enter Showing from any
      phase, and FinishReveal has no phase restriction; those moves are
      outside this table. */
  predicate Edge(from: Phase, to: Phase): (ok: bool)
    ensures ok ==> from != to && to != Home
    ensures ok && from == Playing ==> to == GameOver || to == Showing
  {
    match from
    case Home => to == HowToPlay
    case HowToPlay => to == DifficultySelect
    case DifficultySelect => to == DifficultyConfirm
    case DifficultyConfirm => to == Countdown || to == DifficultySelect
    case Countdown => to == Showing
    case Showing => to == Playing
    case Playing => to == GameOver || to == Showing
    case GameOver => to == Showing || to == DifficultySelect
  }

  // ---------------------------------------------------------------------
  // High-score store
  // ---------------------------------------------------------------------

  const KeyPrefix: string := "sequenceMemoryHighScore_"

  /** Storage key of the best level for a difficulty. */
  function StorageKey(d: Difficulty): (key: string)
    ensures |key| > |KeyPrefix| <==> d != Unset
    ensures |key| >= |KeyPrefix| && key[..|KeyPrefix|] == KeyPrefix
    ensures key[|KeyPrefix|..] == Name(d)
  {
    KeyPrefix + Name(d)
  }

  /** Different difficulties keep their best levels under different keys. */
  lemma StorageKeysDistinct(d1: Difficulty, d2: Difficulty)
    requires d1 != d2
    ensures StorageKey(d1) != StorageKey(d2)
  {
    assert StorageKey(d1)[|KeyPrefix|..] == Name(d1);
    assert StorageKey(d2)[|KeyPrefix|..] == Name(d2);
  }

  /** The stored best level for a difficulty; no record reads as 0. */
  function LoadHighScore(store: map<string, nat>, d: Difficulty): (best: nat)
    ensures StorageKey(d) !in store ==> best == 0
    ensures StorageKey(d) in store ==> best == store[StorageKey(d)]
  {
    if StorageKey(d) in store then store[StorageKey(d)] else 0
  }

  /** The best level after a game over at `level`: replaced only when the
      level strictly exceeds it, so it never decreases. */
  function NewBest(best: nat, level: nat): (r: nat)
    ensures r >= best && r >= level
    ensures r == best || r == level
    ensures r != best <==> level > best
  {
    if level > best then level else best
  }

  /** No stored best level is lost or lowered from `before` to `after`. */
  ghost predicate NoScoreLost(before: map<string, nat>, after: map<string, nat>)
  {
    forall k :: k in before ==> k in after && before[k] <= after[k]
  }

  // ---------------------------------------------------------------------
  // Touch/click filter
  // ---------------------------------------------------------------------

  /** The event that triggered a handler, with the clock reading taken when
      it was handled; NoEvent when the handler ran without one. */
  datatype PointerEvent = NoEvent | TouchStart(now: int) | Click(now: int)

  /** Whether a handler goes on, and the new time of the last touch. */
  datatype Gate = Gate(accepted: bool, lastTouch: int)

  const ClickAfterTouchWindow: int := 500

  /** A touch records its time; a click within the window after the last
      touch is dropped as that touch's echo. */
  function Dedup(lastTouch: int, e: PointerEvent): (g: Gate)
    ensures !g.accepted ==> e.Click? && e.now - lastTouch < ClickAfterTouchWindow
    ensures e.Click? && e.now - lastTouch < ClickAfterTouchWindow ==> !g.accepted
    ensures e.TouchStart? ==> g.lastTouch == e.now
    ensures !e.TouchStart? ==> g.lastTouch == lastTouch
  {
    match e
    case NoEvent => Gate(true, lastTouch)
    case TouchStart(now) => Gate(true, now)
    case Click(now) => Gate(now - lastTouch >= ClickAfterTouchWindow, lastTouch)
  }

  /** A touch and the click the browser synthesises from it less than 500 ms
      later make one tap: the touch passes and the click is dropped; a click
      500 ms or more after the last touch passes again. */
  lemma TouchThenClickCountsOnce(last: int, touchAt: int, clickAt: int)
    requires touchAt <= clickAt
    ensures Dedup(last, TouchStart(touchAt)).accepted
    ensures Dedup(Dedup(last, TouchStart(touchAt)).lastTouch, Click(clickAt)).accepted
      <==> clickAt - touchAt >= ClickAfterTouchWindow
  {
  }

  // ---------------------------------------------------------------------
  // Sequence generation
  // ---------------------------------------------------------------------

  /** What a scheduled deal captured: the level it deals for, the number of
      ids to draw from, and the pause before it runs. */
  datatype Deal = Deal(level: nat, maxColors: nat, pause: nat)

  /** The deal startGame schedules: level 1, the four 2x2 tiles, one second. */
  const FirstDeal: Deal := Deal(1, 4, 1000)

  /** Ordinary pause between levels and the longer one after a grid upgrade. */
  const LevelPause: nat := 800
  const UpgradePause: nat := 1500

  /** The sequence an injected chooser yields: draw `i` is reduced to an id
      below `maxColors`, with replacement. */
  function Drawn(n: nat, maxColors: nat, rng: nat -> nat): (s: seq<nat>)
    requires maxColors > 0
    ensures |s| == n
    ensures forall i :: 0 <= i < n ==> s[i] < maxColors
  {
    seq(n, (i: int) requires 0 <= i < n => rng(i) % maxColors)
  }

  /** The chooser can produce any sequence of ids below the bound, repeats
      included. */
  lemma DrawnReachesEverySequence(target: seq<nat>, maxColors: nat)
    requires maxColors > 0
    requires forall i :: 0 <= i < |target| ==> target[i] < maxColors
    ensures Drawn(|target|, maxColors, (i: nat) => if i < |target| then target[i] else 0) == target
  {
  }

  /** A fresh sequence of `n` ids drawn from [0, maxColors). */
  method RandomSequence(n: nat, maxColors: nat, rng: nat -> nat) returns (s: seq<nat>)
    requires maxColors > 0
    ensures |s| == n
    ensures forall i :: 0 <= i < n ==> s[i] < maxColors
    ensures s == Drawn(n, maxColors, rng)
  {
    s := [];
    var i := 0;
    while i < n
      invariant 0 <= i <= n
      invariant |s| == i
      invariant forall k :: 0 <= k < i ==> s[k] == rng(k) % maxColors
    {
      s := s + [rng(i) % maxColors];
      i := i + 1;
    }
  }

  // ---------------------------------------------------------------------
  // Reveal
  // ---------------------------------------------------------------------

  /** One tile lit during a reveal; times are in half milliseconds from the
      start of the reveal. */
  datatype Flash = Flash(id: nat, litAt: nat, darkAt: nat)

  /** Half milliseconds one tile of the reveal takes. */
  function Period(t: Timing): nat
  {
    t.doubleBefore + 2 * t.active
  }

  /** The tiles of `s` light in order, one at a time: each goes dark before
      the next lights. */
  ghost predicate OneAtATime(flashes: seq<Flash>)
  {
    forall i, j :: 0 <= i < j < |flashes| ==> flashes[i].darkAt <= flashes[j].litAt
  }

  /** Plays `s` back: for each id wait the pause, light it for the active
      duration, then darken it. Returns the flashes and the total time. */
  method Reveal(s: seq<nat>, t: Timing) returns (flashes: seq<Flash>, elapsed: nat)
    ensures |flashes| == |s|
    ensures forall i :: 0 <= i < |s| ==> flashes[i].id == s[i]
    ensures forall i :: 0 <= i < |s| ==>
      flashes[i].litAt == i * Period(t) + t.doubleBefore &&
      flashes[i].darkAt == flashes[i].litAt + 2 * t.active
    ensures OneAtATime(flashes)
    ensures forall i :: 0 <= i < |s| ==> flashes[i].darkAt <= elapsed
    ensures elapsed == |s| * Period(t)
  {
    flashes, elapsed := [], 0;
    var i := 0;
    while i < |s|
      invariant 0 <= i <= |s|
      invariant |flashes| == i
      invariant elapsed == i * Period(t)
      invariant forall k :: 0 <= k < i ==> flashes[k].id == s[k]
      invariant forall k :: 0 <= k < i ==>
        flashes[k].litAt == k * Period(t) + t.doubleBefore &&
        flashes[k].darkAt == flashes[k].litAt + 2 * t.active
      invariant forall k :: 0 <= k < i ==> flashes[k].darkAt <= elapsed
      invariant OneAtATime(flashes)
    {
      elapsed := elapsed + t.doubleBefore;
      var lit := elapsed;
      elapsed := elapsed + 2 * t.active;
      assert elapsed == (i + 1) * Period(t);
      flashes := flashes + [Flash(s[i], lit, elapsed)];
      i := i + 1;
    }
  }

  // ---------------------------------------------------------------------
  // The component
  // ---------------------------------------------------------------------

  class SequenceMemoryGame {
    var phase: Phase
    var difficulty: Difficulty
    var countdown: int
    var sequence: seq<nat>
    var playerSequence: seq<nat>
    var currentLevel: nat
    var highScore: nat
    var isPlayingSequence: bool
    var lastTouchTime: int
    /** The browser's key-value store, as far as the game uses it. */
    var store: map<string, nat>

    ghost predicate Valid()
      reads this
    {
      && currentLevel >= 1
      && 0 <= countdown <= 5
      && highScore == LoadHighScore(store, difficulty)
      && (isPlayingSequence ==> phase == Showing)
      && (forall i :: 0 <= i < |sequence| ==> sequence[i] < 25)
    }

    /** The component as first rendered: the best level for the empty
        difficulty is loaded from `saved`. */
    constructor (saved: map<string, nat>)
      ensures Valid()
      ensures phase == Home && difficulty == Unset && countdown == 5
      ensures sequence == [] && playerSequence == [] && currentLevel == 1
      ensures !isPlayingSequence && lastTouchTime == 0
      ensures store == saved && highScore == LoadHighScore(saved, Unset)
    {
      phase := Home;
      difficulty := Unset;
      countdown := 5;
      sequence := [];
      playerSequence := [];
      currentLevel := 1;
      isPlayingSequence := false;
      lastTouchTime := 0;
      store := saved;
      highScore := LoadHighScore(saved, Unset);
    }

    /** The button on the home screen. */
    method GoToHowToPlay()
      requires Valid() && phase == Home
      modifies this`phase
      ensures Valid() && phase == HowToPlay && Edge(old(phase), phase)
    {
      phase := HowToPlay;
    }

    /** The buttons on the instructions, confirmation and game-over screens. */
    method GoToDifficultySelect()
      requires Valid()
      requires phase == HowToPlay || phase == DifficultyConfirm || phase == GameOver
      modifies this`phase
      ensures Valid() && phase == DifficultySelect && Edge(old(phase), phase)
    {
      phase := DifficultySelect;
    }

    /** A difficulty button: unless the event is the echo of a touch, the
        difficulty is set, its best level loaded, and the choice confirmed. */
    method SelectDifficulty(d: Difficulty, e: PointerEvent) returns (accepted: bool)
      requires Valid() && phase == DifficultySelect && d != Unset
      modifies this`difficulty, this`phase, this`lastTouchTime, this`highScore
      ensures Valid()
      ensures accepted == Dedup(old(lastTouchTime), e).accepted
      ensures lastTouchTime == Dedup(old(lastTouchTime), e).lastTouch
      ensures accepted ==> difficulty == d && phase == DifficultyConfirm && Edge(old(phase), phase)
      ensures accepted ==> highScore == LoadHighScore(store, d)
      ensures !accepted ==> difficulty == old(difficulty) && phase == old(phase) && highScore == old(highScore)
    {
      var gate := Dedup(lastTouchTime, e);
      lastTouchTime := gate.lastTouch;
      accepted := gate.accepted;
      if accepted {
        difficulty := d;
        highScore := LoadHighScore(store, d);
        phase := DifficultyConfirm;
      }
    }

    /** The start button on the confirmation screen. */
    method StartCountdown()
      requires Valid() && phase == DifficultyConfirm
      modifies this`phase, this`countdown
      ensures Valid() && phase == Countdown && countdown == 5 && Edge(old(phase), phase)
    {
      phase := Countdown;
      countdown := 5;
    }

    /** Starts a session at level 1 with both sequences empty, and schedules
        the first deal. Run by the countdown and by the Play Again button. */
    method StartGame() returns (deal: Deal)
      requires Valid()
      modifies this`sequence, this`playerSequence, this`currentLevel, this`isPlayingSequence, this`phase
      ensures Valid()
      ensures sequence == [] && playerSequence == [] && currentLevel == 1
      ensures !isPlayingSequence && phase == Showing
      ensures old(phase) == Countdown || old(phase) == GameOver ==> Edge(old(phase), phase)
      ensures deal == FirstDeal
      ensures deal.level == currentLevel && deal.maxColors == MaxColors(GridLevel(currentLevel, difficulty))
    {
      sequence := [];
      playerSequence := [];
      currentLevel := 1;
      isPlayingSequence := false;
      phase := Showing;
      deal := FirstDeal;
      FirstLevelDrawsFromFour(difficulty);
    }

    /** One run of the countdown effect: a second passes while the count is
        positive; at zero the game starts. Outside the countdown it does
        nothing. */
    method Tick() returns (started: Option<Deal>)
      requires Valid()
      modifies this`countdown, this`sequence, this`playerSequence, this`currentLevel,
        this`isPlayingSequence, this`phase
      ensures Valid()
      ensures old(phase) != Countdown ==>
        started == None && phase == old(phase) && countdown == old(countdown)
        && sequence == old(sequence) && playerSequence == old(playerSequence)
        && currentLevel == old(currentLevel) && isPlayingSequence == old(isPlayingSequence)
      ensures old(phase) == Countdown && old(countdown) > 0 ==>
        started == None && phase == Countdown && countdown == old(countdown) - 1
        && sequence == old(sequence) && playerSequence == old(playerSequence)
        && currentLevel == old(currentLevel)
      ensures old(phase) == Countdown && old(countdown) == 0 ==>
        started == Some(FirstDeal) && phase == Showing && Edge(old(phase), phase) && countdown == 0
        && sequence == [] && playerSequence == [] && currentLevel == 1 && !isPlayingSequence
    {
      started := None;
      if phase == Countdown && countdown > 0 {
        countdown := countdown - 1;
      } else if phase == Countdown && countdown == 0 {
        var deal := StartGame();
        started := Some(deal);
      }
    }

    /** The countdown from its current count down to the start of the game:
        one tick per second while positive, then one that starts the game. */
    method RunCountdown() returns (ticks: nat, deal: Deal)
      requires Valid() && phase == Countdown
      modifies this`countdown, this`sequence, this`playerSequence, this`currentLevel,
        this`isPlayingSequence, this`phase
      ensures Valid()
      ensures ticks == old(countdown) + 1 && countdown == 0
      ensures phase == Showing && Edge(old(phase), phase)
      ensures sequence == [] && playerSequence == [] && currentLevel == 1 && !isPlayingSequence
      ensures deal == FirstDeal
    {
      ticks := 0;
      var started: Option<Deal> := None;
      while started.None?
        invariant Valid()
        invariant started.None? ==> phase == Countdown && ticks + countdown == old(countdown)
        invariant started.Some? ==>
          started.value == FirstDeal && phase == Showing && countdown == 0
          && ticks == old(countdown) + 1
          && sequence == [] && playerSequence == [] && currentLevel == 1 && !isPlayingSequence
        decreases if started.None? then countdown + 1 else 0
      {
        started := Tick();
        ticks := ticks + 1;
      }
      deal := started.value;
    }

    /** The callback of a scheduled deal: draw a sequence of the captured
        length from the captured range, store it and start revealing it at
        the captured level's timing. It runs whatever the phase is by then. */
    method DealSequence(deal: Deal, rng: nat -> nat) returns (flashes: seq<Flash>)
      requires Valid()
      requires 0 < deal.maxColors <= 25
      modifies this`sequence, this`isPlayingSequence, this`phase
      ensures Valid()
      ensures sequence == Drawn(deal.level, deal.maxColors, rng)
      ensures isPlayingSequence && phase == Showing
      ensures old(phase) == Playing || old(phase) == GameOver ==> Edge(old(phase), phase)
      ensures |flashes| == |sequence| && OneAtATime(flashes)
      ensures forall i :: 0 <= i < |flashes| ==> flashes[i].id == sequence[i]
      ensures forall i :: 0 <= i < |flashes| ==>
        flashes[i].darkAt - flashes[i].litAt == 2 * RevealTiming(deal.level, difficulty).active
    {
      var s := RandomSequence(deal.level, deal.maxColors, rng);
      sequence := s;
      isPlayingSequence := true;
      phase := Showing;
      var elapsed;
      flashes, elapsed := Reveal(s, RevealTiming(deal.level, difficulty));
    }

    /** The end of a reveal: input is enabled. */
    method FinishReveal()
      requires Valid()
      modifies this`isPlayingSequence, this`phase
      ensures Valid() && !isPlayingSequence && phase == Playing
      ensures old(phase) == Showing ==> Edge(old(phase), phase)
    {
      isPlayingSequence := false;
      phase := Playing;
    }

    /** Ends the game; the level being attempted becomes the best level for
        the difficulty, in memory and in the store, when it beats it. */
    method EndGame()
      requires Valid() && !isPlayingSequence
      modifies this`phase, this`highScore, this`store
      ensures Valid() && phase == GameOver
      ensures old(phase) == Playing ==> Edge(old(phase), phase)
      ensures highScore == NewBest(old(highScore), currentLevel)
      ensures store == if currentLevel > old(highScore)
        then old(store)[StorageKey(difficulty) := currentLevel] else old(store)
      ensures NoScoreLost(old(store), store)
    {
      phase := GameOver;
      if currentLevel > highScore {
        highScore := currentLevel;
        store := store[StorageKey(difficulty) := currentLevel];
      }
    }

    /** A tile tap. Ignored unless playing with no reveal running, and
        ignored when it is the click echo of a touch; otherwise the id is
        appended and the last index judged. A mismatch ends the game at the
        current level; a completed level leaves the state playing until the
        scheduled NextLevel runs. */
    method HandleColorClick(colorId: nat, e: PointerEvent) returns (v: Verdict)
      requires Valid()
      modifies this`playerSequence, this`lastTouchTime, this`phase, this`highScore, this`store
      ensures Valid()
      ensures NoScoreLost(old(store), store)
      ensures old(phase) != Playing || old(isPlayingSequence) ==>
        v == Ignored && playerSequence == old(playerSequence) && lastTouchTime == old(lastTouchTime)
        && phase == old(phase) && highScore == old(highScore) && store == old(store)
      ensures old(phase) == Playing && !old(isPlayingSequence) ==>
        lastTouchTime == Dedup(old(lastTouchTime), e).lastTouch
      ensures old(phase) == Playing && !old(isPlayingSequence) && !Dedup(old(lastTouchTime), e).accepted ==>
        v == Ignored && playerSequence == old(playerSequence)
        && phase == old(phase) && highScore == old(highScore) && store == old(store)
      ensures old(phase) == Playing && !old(isPlayingSequence) && Dedup(old(lastTouchTime), e).accepted ==>
        playerSequence == old(playerSequence) + [colorId] && v == Judge(sequence, playerSequence)
      ensures v == Mismatch ==>
        phase == GameOver && Edge(old(phase), phase) && highScore == NewBest(old(highScore), currentLevel)
      ensures v == Mismatch ==>
        store == if currentLevel > old(highScore)
          then old(store)[StorageKey(difficulty) := currentLevel] else old(store)
      ensures v != Mismatch ==> phase == old(phase) && highScore == old(highScore) && store == old(store)
    {
      v := Ignored;
      if phase != Playing || isPlayingSequence {
        return;
      }
      var gate := Dedup(lastTouchTime, e);
      lastTouchTime := gate.lastTouch;
      if !gate.accepted {
        return;
      }
      playerSequence := playerSequence + [colorId];
      v := Judge(sequence, playerSequence);
      if v == Mismatch {
        EndGame();
      }
    }

    /** The callback scheduled 300 ms after a completed level: the next level
        begins with an empty input, and a deal for it is scheduled after the
        longer pause exactly when the grid grows. The sequence on show is not
        replaced until that deal runs. */
    method NextLevel() returns (deal: Deal)
      requires Valid()
      modifies this`currentLevel, this`playerSequence
      ensures Valid()
      ensures currentLevel == old(currentLevel) + 1 && playerSequence == []
      ensures deal.level == currentLevel
      ensures deal.maxColors == GridLevel(currentLevel, difficulty) * GridLevel(currentLevel, difficulty)
      ensures deal.pause == UpgradePause <==> GridLevel(currentLevel, difficulty) > GridLevel(old(currentLevel), difficulty)
      ensures deal.pause == UpgradePause || deal.pause == LevelPause
    {
      var newLevel := currentLevel + 1;
      var oldGridSize := GridLevel(currentLevel, difficulty);
      var newGridSize := GridLevel(newLevel, difficulty);
      var isGridUpgrade := newGridSize > oldGridSize;
      playerSequence := [];
      currentLevel := newLevel;
      deal := Deal(newLevel, MaxColors(newGridSize), if isGridUpgrade then UpgradePause else LevelPause);
    }
  }

  /** Taps on tiles, each made by touch, one after the other with no timer
      firing in between: the handler yields exactly the verdicts Replay
      gives for the sequence on show and the input already entered. */
  method TapAll(game: SequenceMemoryGame, taps: seq<nat>) returns (vs: seq<Verdict>)
    requires game.Valid() && game.phase == Playing && !game.isPlayingSequence
    modifies game
    ensures game.Valid()
    ensures vs == Replay(old(game.sequence), old(game.playerSequence), taps)
    decreases |taps|
  {
    if taps == [] {
      return [];
    }
    var v := game.HandleColorClick(taps[0], TouchStart(0));
    var rest;
    if v == Mismatch {
      rest := IgnoreAll(game, taps[1..]);
    } else {
      rest := TapAll(game, taps[1..]);
    }
    vs := [v] + rest;
  }

  /** Taps after a game over: each is ignored and the game stays over. */
  method IgnoreAll(game: SequenceMemoryGame, taps: seq<nat>) returns (vs: seq<Verdict>)
    requires game.Valid() && game.phase == GameOver
    modifies game
    ensures game.Valid() && game.phase == GameOver
    ensures vs == IgnoredTaps(|taps|)
    decreases |taps|
  {
    if taps == [] {
      return [];
    }
    var v := game.HandleColorClick(taps[0], TouchStart(0));
    var rest := IgnoreAll(game, taps[1..]);
    vs := [v] + rest;
  }

  /** Tapping the whole sequence on show through the handler continues on
      every tap but the last and completes the level on the last. */
  method WholeSequenceScenario(game: SequenceMemoryGame)
    requires game.Valid() && game.phase == Playing && !game.isPlayingSequence
    requires game.playerSequence == [] && |game.sequence| > 0
    modifies game
  {
    var target := game.sequence;
    var vs := TapAll(game, target);
    ReplayWholeSequence(target);
    assert vs == Continues(|target| - 1) + [LevelComplete];
  }

  /** A session started through the component: the screens lead to the
      countdown, six ticks start level 1, and a chooser that always yields 2
      deals the sequence [2]. */
  method StartScenario(saved: map<string, nat>) returns (game: SequenceMemoryGame)
  {
    game := new SequenceMemoryGame(saved);
    game.GoToHowToPlay();
    game.GoToDifficultySelect();
    var accepted := game.SelectDifficulty(Medium, TouchStart(1000));
    assert accepted && game.difficulty == Medium;
    game.StartCountdown();
    var ticks, deal := game.RunCountdown();
    assert ticks == 6 && game.currentLevel == 1 && deal == FirstDeal;
    var flashes := game.DealSequence(deal, (i: nat) => 2);
    assert game.sequence == [2] && game.phase == Showing;
  }

  /** Level 1 with sequence [2]: once the reveal ends, tapping 2 completes the
      level, and the next deal is for level 2 on the 2x2 grid after the
      ordinary pause. */
  method FirstTapScenario(game: SequenceMemoryGame)
    requires game.Valid() && game.phase == Showing
    requires game.sequence == [2] && game.playerSequence == [] && game.currentLevel == 1
    modifies game
  {
    game.FinishReveal();
    var v := game.HandleColorClick(2, TouchStart(5000));
    assert v == LevelComplete;
    var next := game.NextLevel();
    assert game.currentLevel == 2 && next == Deal(2, 4, LevelPause);
  }

  /** Level 1 with sequence [2]: a second tap after the completing one has
      nothing to match and ends the game at level 1, although the completing
      tap has already scheduled NextLevel. */
  method OverTapScenario(game: SequenceMemoryGame)
    requires game.Valid() && game.phase == Showing
    requires game.sequence == [2] && game.playerSequence == [] && game.currentLevel == 1
    modifies game
  {
    game.FinishReveal();
    var v := game.HandleColorClick(2, TouchStart(5000));
    assert v == LevelComplete;
    v := game.HandleColorClick(3, TouchStart(5100));
    assert v == Mismatch && game.phase == GameOver && game.currentLevel == 1;
  }

  /** Continuation of OverTapScenario: nothing cancels the scheduled
      callbacks, so NextLevel and its deal still run after the game over and
      put the game back into the reveal of level 2. */
  method StaleDealScenario(game: SequenceMemoryGame)
    requires game.Valid() && game.phase == GameOver && game.currentLevel == 1
    modifies game
  {
    var next := game.NextLevel();
    var flashes := game.DealSequence(next, (i: nat) => 0);
    assert game.phase == Showing && game.currentLevel == 2 && |game.sequence| == 2;
  }
}
