/** The ESP32 script (esp32/main.py): at power-up it sets the player's
    volume and plays track 1; then, forever, it reads the button and keeps
    two flags saying which track it last started. A high reading turns the
    LED off and starts track 1 unless track 1 is already playing; a low
    reading turns the LED on and starts track 2 unless track 2 is already
    playing. The pins and the player are an effect log here, and one loop
    iteration is one step. */
module ButtonPlayer {

  /** A command to the hardware: the player's volume, a track to play, the LED level. */
  datatype Effect = SetVolume(level: nat) | Play(track: nat) | Led(level: nat)

  datatype Flags = Flags(playing1: bool, playing2: bool)

  /** The flags right after power-up, and the commands issued then. */
  const Boot := Flags(false, false)
  const BootEffects := [SetVolume(20), Play(1)]

  /** The track a reading asks for, and whether the flags say it is already on. */
  function Track(high: bool): nat {
    if high then 1 else 2
  }

  predicate PlayingFor(f: Flags, high: bool) {
    if high then f.playing1 else f.playing2
  }

  /** The flags after one iteration: exactly one is set, the one for the
      track the reading asks for. */
  function StepFlags(f: Flags, high: bool): (g: Flags)
    ensures g.playing1 == high && g.playing2 == !high
  {
    if high then Flags(true, false) else Flags(false, true)
  }

  /** The commands one iteration issues: the LED level, then the track if
      it was not already playing. */
  function StepEffects(f: Flags, high: bool): (e: seq<Effect>)
    ensures 1 <= |e| <= 2 && e[0] == Led(if high then 0 else 1)
    ensures Play(1) in e <==> high && !f.playing1
    ensures Play(2) in e <==> !high && !f.playing2
  {
    [Led(if high then 0 else 1)] + (if PlayingFor(f, high) then [] else [Play(Track(high))])
  }

  /** The flags and the commands after a sequence of readings. */
  function RunFlags(f: Flags, levels: seq<bool>): Flags {
    if levels == [] then f
    else StepFlags(RunFlags(f, levels[..|levels| - 1]), levels[|levels| - 1])
  }

  function RunEffects(f: Flags, levels: seq<bool>): seq<Effect> {
    if levels == [] then []
    else
      var prefix := levels[..|levels| - 1];
      RunEffects(f, prefix) + StepEffects(RunFlags(f, prefix), levels[|levels| - 1])
  }

  /** One more level extends a run by one step. */
  lemma RunSnoc(f: Flags, levels: seq<bool>, high: bool)
    ensures RunFlags(f, levels + [high]) == StepFlags(RunFlags(f, levels), high)
    ensures RunEffects(f, levels + [high]) == RunEffects(f, levels) + StepEffects(RunFlags(f, levels), high)
  {
    assert (levels + [high])[..|levels|] == levels;
  }

  /** The run over the first `i + 1` levels is the run over the first `i`
      followed by one step. */
  lemma RunStep(f: Flags, levels: seq<bool>, i: nat)
    requires i < |levels|
    ensures RunFlags(f, levels[..i + 1]) == StepFlags(RunFlags(f, levels[..i]), levels[i])
    ensures RunEffects(f, levels[..i + 1]) == RunEffects(f, levels[..i]) + StepEffects(RunFlags(f, levels[..i]), levels[i])
  {
    RunSnoc(f, levels[..i], levels[i]);
    assert levels[..i + 1] == levels[..i] + [levels[i]];
  }

  lemma AppendAssoc(a: seq<Effect>, b: seq<Effect>, c: seq<Effect>)
    ensures (a + b) + c == a + (b + c)
  {
  }

  /** The tracks started, in order, by a sequence of commands. */
  function Plays(effects: seq<Effect>): seq<nat> {
    if effects == [] then []
    else
      var last := effects[|effects| - 1];
      Plays(effects[..|effects| - 1]) + (if last.Play? then [last.track] else [])
  }

  lemma {:induction false} PlaysAppend(a: seq<Effect>, b: seq<Effect>)
    ensures Plays(a + b) == Plays(a) + Plays(b)
  {
    if b != [] {
      assert (a + b)[..|a + b| - 1] == a + b[..|b| - 1];
      PlaysAppend(a, b[..|b| - 1]);
    } else {
      assert a + b == a;
    }
  }

  /** An iteration starts the asked-for track exactly when the flags say it
      is not already playing, and starts nothing else. */
  lemma StepPlays(f: Flags, high: bool)
    ensures Plays(StepEffects(f, high)) == if PlayingFor(f, high) then [] else [Track(high)]
  {
    var e := StepEffects(f, high);
    assert Plays([e[0]]) == [] by {
      assert [e[0]][..0] == [];
    }
    if !PlayingFor(f, high) {
      assert e == [e[0]] + [Play(Track(high))];
      assert e[..1] == [e[0]];
    } else {
      assert e == [e[0]];
    }
  }

  /** After any non-empty run of readings, the flags name the last reading's track. */
  lemma AfterReadings(f: Flags, levels: seq<bool>)
    requires levels != []
    ensures PlayingFor(RunFlags(f, levels), levels[|levels| - 1])
    ensures !PlayingFor(RunFlags(f, levels), !levels[|levels| - 1])
  {
  }

  /** The readings repeated `n` times. */
  function Repeat(high: bool, n: nat): (r: seq<bool>)
    ensures |r| == n && forall k :: 0 <= k < n ==> r[k] == high
  {
    seq(n, _ => high)
  }

  /** Extending a run by one more equal reading starts no track. */
  lemma RepeatStaysQuiet(f: Flags, high: bool, n: nat)
    requires n >= 1
    ensures Plays(RunEffects(f, Repeat(high, n + 1))) == Plays(RunEffects(f, Repeat(high, n)))
  {
    var prefix := Repeat(high, n);
    assert Repeat(high, n + 1) == prefix + [high];
    RunSnoc(f, prefix, high);
    AfterReadings(f, prefix);
    var before, step := RunEffects(f, prefix), StepEffects(RunFlags(f, prefix), high);
    StepPlays(RunFlags(f, prefix), high);
    PlaysAppend(before, step);
    assert Plays(before) + [] == Plays(before);
  }

  /** The first reading of a run is one iteration. */
  lemma FirstOfRun(f: Flags, high: bool)
    requires !PlayingFor(f, high)
    ensures Plays(RunEffects(f, Repeat(high, 1))) == [Track(high)]
  {
    assert Repeat(high, 1) == [high];
    assert [high][..0] == [];
    StepPlays(f, high);
  }

  /** A run of equal readings that follows a different reading (or power-up)
      starts its track exactly once, in its first iteration: every prefix
      of the run has started it once already. */
  lemma {:induction false} RunPlaysOnce(f: Flags, high: bool, n: nat)
    requires n >= 1 && !PlayingFor(f, high)
    ensures forall k :: 1 <= k <= n ==> Plays(RunEffects(f, Repeat(high, k))) == [Track(high)]
  {
    if n == 1 {
      FirstOfRun(f, high);
    } else {
      RunPlaysOnce(f, high, n - 1);
      RepeatStaysQuiet(f, high, n - 1);
      forall k | 1 <= k <= n
        ensures Plays(RunEffects(f, Repeat(high, k))) == [Track(high)]
      {
        if k < n {
          assert 1 <= k <= n - 1;
        }
      }
    }
  }

  /** The number of runs of equal readings in a sequence. */
  function Runs(levels: seq<bool>): nat {
    if levels == [] then 0
    else
      var n := |levels|;
      Runs(levels[..n - 1]) + (if n == 1 || levels[n - 2] != levels[n - 1] then 1 else 0)
  }

  /** From power-up, the loop starts one track per run of equal readings
      and no other. */
  lemma {:induction false} OnePlayPerRun(levels: seq<bool>)
    ensures |Plays(RunEffects(Boot, levels))| == Runs(levels)
  {
    if levels != [] {
      var n := |levels|;
      var prefix := levels[..n - 1];
      OnePlayPerRun(prefix);
      var f := RunFlags(Boot, prefix);
      PlaysAppend(RunEffects(Boot, prefix), StepEffects(f, levels[n - 1]));
      StepPlays(f, levels[n - 1]);
      if n > 1 {
        AfterReadings(Boot, prefix);
        assert prefix[n - 2] == levels[n - 2];
      }
    }
  }

  /** A high reading right after power-up starts track 1 a second time. */
  lemma FirstHighReplaysTrackOne()
    ensures Plays(BootEffects + RunEffects(Boot, [true])) == [1, 1]
  {
    assert [true][..0] == [];
    StepPlays(Boot, true);
    PlaysAppend(BootEffects, RunEffects(Boot, [true]));
    assert Plays(BootEffects) == [1] by {
      assert BootEffects[..1] == [SetVolume(20)];
      assert BootEffects[..1][..0] == [];
    }
  }

  /** The script's state: its two flags and everything it has sent to the
      LED and the player. */
  class Player {
    var isPlaying1: bool
    var isPlaying2: bool
    var effects: seq<Effect>

    function State(): Flags
      reads this
    {
      Flags(isPlaying1, isPlaying2)
    }

    /** Power-up: volume 20, track 1, both flags clear. */
    constructor()
      ensures State() == Boot && effects == BootEffects
    {
      effects := [SetVolume(20), Play(1)];
      isPlaying1, isPlaying2 := false, false;
    }

    /** One iteration of the loop for a button level. */
    method Step(high: bool) returns (out: seq<Effect>)
      modifies this
      ensures out == StepEffects(old(State()), high)
      ensures State() == StepFlags(old(State()), high)
      ensures effects == old(effects) + out
    {
      if high {
        isPlaying2 := false;
        out := [Led(0)];
        if !isPlaying1 {
          isPlaying1 := true;
          out := out + [Play(1)];
        }
      } else {
        isPlaying1 := false;
        out := [Led(1)];
        if !isPlaying2 {
          isPlaying2 := true;
          out := out + [Play(2)];
        }
      }
      effects := effects + out;
    }

    /** The loop over a finite sequence of button levels. */
    method Run(levels: seq<bool>) returns (out: seq<Effect>)
      modifies this
      ensures out == RunEffects(old(State()), levels)
      ensures State() == RunFlags(old(State()), levels)
      ensures effects == old(effects) + out
    {
      ghost var start := State();
      out := [];
      var i := 0;
      while i < |levels|
        invariant 0 <= i <= |levels|
        invariant out == RunEffects(start, levels[..i])
        invariant State() == RunFlags(start, levels[..i])
        invariant effects == old(effects) + out
      {
        RunStep(start, levels, i);
        var stepped := Step(levels[i]);
        AppendAssoc(old(effects), out, stepped);
        out := out + stepped;
        i := i + 1;
      }
      assert levels[..|levels|] == levels;
    }
  }
}
