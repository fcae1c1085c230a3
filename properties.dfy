/** Properties of the dispatch model that relate several requests or several pairs. */
module Properties {
  import opened Optional
  import opened Assets
  import opened Bodies
  import opened Dispatch

  /** Applying one more request is one more step. */
  lemma RunSnoc(audios: seq<Asset>, st: RunState, calls: seq<Call>, c: Call)
    requires forall k :: 0 <= k < |calls| ==> calls[k].body in st.configs
    requires c.body in st.configs
    ensures Run(audios, st, calls + [c]) == Step(audios, Run(audios, st, calls), c)
  {
    assert (calls + [c])[..|calls|] == calls;
  }

  /** The requests of one pair, run: A alone, B alone, or A then B as the `selfOnly` rule says. */
  lemma PairRun(audios: seq<Asset>, st: RunState, p: Pair, aSelfOnly: bool, bSelfOnly: bool)
    requires p.bodyA in st.configs && p.bodyB in st.configs
    ensures Run(audios, st, PairCalls(p, aSelfOnly, bSelfOnly)) ==
      if aSelfOnly then Step(audios, st, CallFor(p, A))
      else if bSelfOnly then Step(audios, st, CallFor(p, B))
      else Step(audios, Step(audios, st, CallFor(p, A)), CallFor(p, B))
  {
    var calls := PairCalls(p, aSelfOnly, bSelfOnly);
    if aSelfOnly || bSelfOnly {
      RunSnoc(audios, st, [], calls[0]);
      assert calls == [] + [calls[0]];
    } else {
      RunSnoc(audios, st, [], CallFor(p, A));
      RunSnoc(audios, st, [CallFor(p, A)], CallFor(p, B));
      assert calls == [CallFor(p, A)] + [CallFor(p, B)];
    }
  }

  /** Requests compose: running `xs + ys` is running `xs`, then `ys` from where `xs` left off. */
  lemma {:induction false} RunAppend(audios: seq<Asset>, st: RunState, xs: seq<Call>, ys: seq<Call>)
    requires forall k :: 0 <= k < |xs| ==> xs[k].body in st.configs
    requires forall k :: 0 <= k < |ys| ==> ys[k].body in st.configs
    ensures Run(audios, st, xs + ys) == Run(audios, Run(audios, st, xs), ys)
    decreases |ys|
  {
    if ys == [] {
      assert xs + ys == xs;
    } else {
      var init, last := ys[..|ys| - 1], ys[|ys| - 1];
      assert xs + ys == (xs + init) + [last];
      RunAppend(audios, st, xs, init);
      RunSnoc(audios, st, xs + init, last);
      RunSnoc(audios, Run(audios, st, xs), init, last);
    }
  }

  /**
   * An error ends the handler: once the requests `xs` have raised one, the later requests
   * `ys` play nothing and change no configuration.
   */
  lemma ErrorEndsEvent(audios: seq<Asset>, st: RunState, xs: seq<Call>, ys: seq<Call>)
    requires forall k :: 0 <= k < |xs| ==> xs[k].body in st.configs
    requires forall k :: 0 <= k < |ys| ==> ys[k].body in st.configs
    requires Run(audios, st, xs).failed
    ensures Run(audios, st, xs + ys) == Run(audios, st, xs)
  {
    RunAppend(audios, st, xs, ys);
  }

  /** The requests of the pairs from `i` on are pair `i`'s requests, then those of the pairs after it. */
  lemma EventCallsAt(pairs: seq<Pair>, i: nat, cfgs: map<Body, SoundConfig>)
    requires i < |pairs| && Covers(pairs[i..], cfgs)
    ensures Covers(pairs[i + 1..], cfgs)
    ensures var p := pairs[i];
      EventCalls(pairs[i..], cfgs) ==
      PairCalls(p, cfgs[p.bodyA].selfOnly, cfgs[p.bodyB].selfOnly) + EventCalls(pairs[i + 1..], cfgs)
  {
    assert pairs[i..][1..] == pairs[i + 1..];
    assert pairs[i..][0] == pairs[i];
  }

  /** `b` is one of the two bodies of one of the pairs. */
  predicate InEvent(b: Body, pairs: seq<Pair>) {
    exists i :: 0 <= i < |pairs| && (pairs[i].bodyA == b || pairs[i].bodyB == b)
  }

  /** Every request of an event is for one of the two bodies of one of its pairs. */
  lemma {:induction false} EventCallsBodies(pairs: seq<Pair>, cfgs: map<Body, SoundConfig>)
    requires Covers(pairs, cfgs)
    ensures forall k :: 0 <= k < |EventCalls(pairs, cfgs)| ==> InEvent(EventCalls(pairs, cfgs)[k].body, pairs)
  {
    if pairs != [] {
      var p := pairs[0];
      var first := PairCalls(p, cfgs[p.bodyA].selfOnly, cfgs[p.bodyB].selfOnly);
      assert Covers(pairs[1..], cfgs) by {
        forall k | 0 <= k < |pairs| - 1 ensures pairs[1..][k] == pairs[k + 1] { }
      }
      var rest := EventCalls(pairs[1..], cfgs);
      EventCallsBodies(pairs[1..], cfgs);
      var r := EventCalls(pairs, cfgs);
      assert r == first + rest;
      forall k | 0 <= k < |r|
        ensures InEvent(r[k].body, pairs)
      {
        if k < |first| {
          assert r[k] == first[k];
          assert pairs[0].bodyA == r[k].body || pairs[0].bodyB == r[k].body;
        } else {
          var m := k - |first|;
          assert r[k] == rest[m] && InEvent(rest[m].body, pairs[1..]);
          var i :| 0 <= i < |pairs[1..]| && (pairs[1..][i].bodyA == rest[m].body || pairs[1..][i].bodyB == rest[m].body);
          assert pairs[1..][i] == pairs[i + 1];
        }
      }
    }
  }

  /**
   * Part way through an event: `i` pairs are done, `st` still holds every body's
   * configuration apart from its index, and the requests of the remaining pairs take `st` to `final`.
   */
  ghost predicate Planned(audios: seq<Asset>, pairs: seq<Pair>, i: nat, cfgs: map<Body, SoundConfig>,
                          st: RunState, final: RunState)
  {
    && i <= |pairs|
    && st.configs.Keys == cfgs.Keys
    && Covers(pairs, cfgs)
    && (forall b :: b in st.configs ==>
          st.configs[b] == cfgs[b].(currentAudioIndex := st.configs[b].currentAudioIndex))
    && Covers(pairs[i..], cfgs)
    && Run(audios, st, EventCalls(pairs[i..], cfgs)) == final
  }

  /** Running pair `i`'s requests moves the plan on by one pair. */
  lemma PlannedStep(audios: seq<Asset>, pairs: seq<Pair>, i: nat, cfgs: map<Body, SoundConfig>,
                    st: RunState, final: RunState)
    requires i < |pairs| && Planned(audios, pairs, i, cfgs, st, final)
    ensures pairs[i].bodyA in st.configs && pairs[i].bodyB in st.configs
    ensures var p := pairs[i];
      var calls := PairCalls(p, st.configs[p.bodyA].selfOnly, st.configs[p.bodyB].selfOnly);
      && (forall k :: 0 <= k < |calls| ==> calls[k].body in st.configs)
      && Planned(audios, pairs, i + 1, cfgs, Run(audios, st, calls), final)
  {
    var p := pairs[i];
    var calls := PairCalls(p, st.configs[p.bodyA].selfOnly, st.configs[p.bodyB].selfOnly);
    EventCallsAt(pairs, i, cfgs);
    assert calls == PairCalls(p, cfgs[p.bodyA].selfOnly, cfgs[p.bodyB].selfOnly);
    RunAppend(audios, st, calls, EventCalls(pairs[i + 1..], cfgs));
  }

  /** A positive multiple of a positive number is at least that number. */
  lemma MulSign(n: int, d: int)
    requires n > 0
    ensures d >= 1 ==> n * d >= n
    ensures d <= -1 ==> n * d <= -n
  {
  }

  /** The remainder is determined by any decomposition `x == n * q + r` with `0 <= r < n`. */
  lemma ModOfDecomp(x: int, n: int, q: int, r: int)
    requires n > 0 && 0 <= r < n && x == n * q + r
    ensures x % n == r
  {
    var q', r' := x / n, x % n;
    assert x == n * q' + r';
    assert n * (q - q') == n * q - n * q';
    MulSign(n, q - q');
  }

  /** Stepping the remainder by one is stepping the number by one. */
  lemma SuccMod(x: nat, len: nat)
    requires 0 < len
    ensures ((x % len) + 1) % len == (x + 1) % len
  {
    var q, r := x / len, x % len;
    assert x == len * q + r;
    if r + 1 < len {
      ModOfDecomp(x + 1, len, q, r + 1);
      ModOfDecomp(r + 1, len, 0, r + 1);
    } else {
      assert x + 1 == len * (q + 1) by { assert len * (q + 1) == len * q + len; }
      ModOfDecomp(x + 1, len, q + 1, 0);
      ModOfDecomp(r + 1, len, 1, 0);
    }
  }

  /**
   * What one request plays when its targeted alternate is entry `j` and present: the
   * `audio` branch's playback, then that alternate.
   */
  function Round(audios: seq<Asset>, b: Body, cfg: SoundConfig, opts: PlayOptions, j: nat): (r: seq<Playback>)
    requires cfg.alternateAudios.Some? && j < |cfg.alternateAudios.value|
    requires Lookup(audios, cfg.alternateAudios.value[j]).Some?
    ensures |r| == |AudioBranch(audios, b, cfg.audio, opts)| + 1
    ensures r[|r| - 1].PlayClone? && r[|r| - 1].asset.name == cfg.alternateAudios.value[j]
  {
    AudioBranch(audios, b, cfg.audio, opts)
      + [PlayClone(b, audios[Lookup(audios, cfg.alternateAudios.value[j]).value], Volume(opts))]
  }

  /**
   * One request to a body whose alternates are all loaded, whatever its `audio`: it plays
   * the `audio` branch and then the targeted alternate, and moves the index onto it.
   */
  lemma AlternateStep(audios: seq<Asset>, st: RunState, b: Body, opts: PlayOptions)
    requires b in st.configs && !st.failed
    requires var cfg := st.configs[b];
      && cfg.alternateAudios.Some?
      && forall j :: 0 <= j < |cfg.alternateAudios.value| ==> Lookup(audios, cfg.alternateAudios.value[j]).Some?
    requires 0 < |st.configs[b].alternateAudios.value|
    ensures var cfg := st.configs[b];
      var t := NextIndex(cfg.currentAudioIndex, |cfg.alternateAudios.value|);
      Step(audios, st, Call(b, opts)) == RunState(
        st.plays + Round(audios, b, cfg, opts, t),
        st.configs[b := cfg.(currentAudioIndex := t)],
        false)
  {
  }

  /** `k` identical requests. */
  function Repeat(c: Call, k: nat): (r: seq<Call>)
    ensures |r| == k && forall j :: 0 <= j < k ==> r[j] == c
  {
    if k == 0 then [] else Repeat(c, k - 1) + [c]
  }

  /** The index reached from `c` after `k` round-robin steps over a list of length `n`. */
  ghost function Advance(c: nat, n: nat, k: nat): (r: nat)
    ensures 0 < n && c < n ==> r < n
  {
    if k == 0 then c else NextIndex(Advance(c, n, k - 1), n)
  }

  /** The round-robin step is addition modulo the length. */
  lemma {:induction false} AdvanceIsMod(c: nat, n: nat, k: nat)
    requires c < n
    ensures Advance(c, n, k) == (c + k) % n
  {
    if k == 0 {
      ModOfDecomp(c, n, 0, c);
    } else {
      AdvanceIsMod(c, n, k - 1);
      SuccMod(c + k - 1, n);
    }
  }

  /** All alternates of `cfg` are present in the table, and the index points into them. */
  ghost predicate AlternatesLoaded(audios: seq<Asset>, cfg: SoundConfig) {
    && cfg.alternateAudios.Some?
    && 0 < |cfg.alternateAudios.value| && cfg.currentAudioIndex < |cfg.alternateAudios.value|
    && forall j :: 0 <= j < |cfg.alternateAudios.value| ==> Lookup(audios, cfg.alternateAudios.value[j]).Some?
  }

  /** The playback of `k` requests as the round-robin walk predicts: round i targets `Advance(c, n, i)`. */
  ghost function WalkPlays(audios: seq<Asset>, b: Body, cfg: SoundConfig, opts: PlayOptions, k: nat): seq<Playback>
    requires AlternatesLoaded(audios, cfg)
  {
    if k == 0 then []
    else
      var alts, c := cfg.alternateAudios.value, cfg.currentAudioIndex;
      WalkPlays(audios, b, cfg, opts, k - 1) + Round(audios, b, cfg, opts, Advance(c, |alts|, k))
  }

  /** `st` is the state after `k` requests to `b`, starting from `cfg`, as the walk predicts. */
  ghost predicate Walked(audios: seq<Asset>, b: Body, cfg: SoundConfig, opts: PlayOptions, k: nat, st: RunState)
    requires AlternatesLoaded(audios, cfg)
  {
    var alts, c := cfg.alternateAudios.value, cfg.currentAudioIndex;
    && !st.failed
    && st.configs == map[b := cfg.(currentAudioIndex := Advance(c, |alts|, k))]
    && st.plays == WalkPlays(audios, b, cfg, opts, k)
  }

  /** One more request extends the walk by one round. */
  lemma WalkStep(audios: seq<Asset>, b: Body, cfg: SoundConfig, opts: PlayOptions, k: nat, st: RunState)
    requires AlternatesLoaded(audios, cfg) && Walked(audios, b, cfg, opts, k, st)
    ensures b in st.configs
    ensures Walked(audios, b, cfg, opts, k + 1, Step(audios, st, Call(b, opts)))
  {
    AlternateStep(audios, st, b, opts);
  }

  /**
   * Successive requests to a body whose alternates are all loaded, whatever its `audio`:
   * no error is raised, the i-th request (from 1) plays the `audio` branch and then the
   * entry at `Advance(c, n, i)`, and k requests leave the index at `Advance(c, n, k)`.
   */
  lemma {:induction false} AlternatesWalk(audios: seq<Asset>, b: Body, cfg: SoundConfig, opts: PlayOptions, k: nat)
    requires AlternatesLoaded(audios, cfg)
    ensures Walked(audios, b, cfg, opts, k, Run(audios, Start(map[b := cfg]), Repeat(Call(b, opts), k)))
  {
    var init := Start(map[b := cfg]);
    if k == 0 {
      assert Run(audios, init, Repeat(Call(b, opts), k)) == init;
    } else {
      var prev := Repeat(Call(b, opts), k - 1);
      AlternatesWalk(audios, b, cfg, opts, k - 1);
      WalkStep(audios, b, cfg, opts, k - 1, Run(audios, init, prev));
      RunSnoc(audios, init, prev, Call(b, opts));
    }
  }

  /** The playback of `k` requests in closed form: round i targets entry `(c + i) % n`. */
  ghost function CyclePlays(audios: seq<Asset>, b: Body, cfg: SoundConfig, opts: PlayOptions, k: nat): seq<Playback>
    requires AlternatesLoaded(audios, cfg)
  {
    if k == 0 then []
    else
      var alts, c := cfg.alternateAudios.value, cfg.currentAudioIndex;
      CyclePlays(audios, b, cfg, opts, k - 1) + Round(audios, b, cfg, opts, (c + k) % |alts|)
  }

  /** The closed form of a walk: the rounds of `CyclePlays`, and index `(c + k) % n` after k requests. */
  ghost predicate Cycled(audios: seq<Asset>, b: Body, cfg: SoundConfig, opts: PlayOptions, k: nat, st: RunState)
    requires AlternatesLoaded(audios, cfg)
  {
    var alts, c := cfg.alternateAudios.value, cfg.currentAudioIndex;
    && !st.failed
    && st.configs == map[b := cfg.(currentAudioIndex := (c + k) % |alts|)]
    && st.plays == CyclePlays(audios, b, cfg, opts, k)
  }

  /** The walk, in closed form. */
  lemma {:induction false} WalkedIsCycled(audios: seq<Asset>, b: Body, cfg: SoundConfig, opts: PlayOptions, k: nat, st: RunState)
    requires AlternatesLoaded(audios, cfg) && Walked(audios, b, cfg, opts, k, st)
    ensures Cycled(audios, b, cfg, opts, k, st)
  {
    AdvanceIsMod(cfg.currentAudioIndex, |cfg.alternateAudios.value|, k);
    WalkPlaysAreCyclePlays(audios, b, cfg, opts, k);
  }

  /** The walk's rounds target the same entries as the closed form's. */
  lemma {:induction false} WalkPlaysAreCyclePlays(audios: seq<Asset>, b: Body, cfg: SoundConfig, opts: PlayOptions, k: nat)
    requires AlternatesLoaded(audios, cfg)
    ensures WalkPlays(audios, b, cfg, opts, k) == CyclePlays(audios, b, cfg, opts, k)
  {
    if k > 0 {
      WalkPlaysAreCyclePlays(audios, b, cfg, opts, k - 1);
      AdvanceIsMod(cfg.currentAudioIndex, |cfg.alternateAudios.value|, k);
    }
  }

  /**
   * Successive requests cycle through the alternates, whatever the body's `audio`: from
   * index `c`, no error is raised, the i-th request (from 1) plays the `audio` branch and then
   * entry `(c + i) % n`, and after k requests the index is `(c + k) % n`.
   */
  lemma AlternatesCycle(audios: seq<Asset>, b: Body, cfg: SoundConfig, opts: PlayOptions, k: nat)
    requires AlternatesLoaded(audios, cfg)
    ensures Cycled(audios, b, cfg, opts, k, Run(audios, Start(map[b := cfg]), Repeat(Call(b, opts), k)))
  {
    AlternatesWalk(audios, b, cfg, opts, k);
    WalkedIsCycled(audios, b, cfg, opts, k, Run(audios, Start(map[b := cfg]), Repeat(Call(b, opts), k)));
  }

  /**
   * For a body with alternates and no `audio`, the rounds are single plays: the j-th play
   * (from 0) is entry `(c + j + 1) % n`.
   */
  lemma {:induction false} CyclePlaysWithoutAudio(audios: seq<Asset>, b: Body, cfg: SoundConfig, opts: PlayOptions, k: nat)
    requires AlternatesLoaded(audios, cfg) && cfg.audio.NoAudio?
    ensures var alts, c := cfg.alternateAudios.value, cfg.currentAudioIndex;
      var plays := CyclePlays(audios, b, cfg, opts, k);
      && |plays| == k
      && forall j :: 0 <= j < k ==>
           plays[j] == PlayClone(b, audios[Lookup(audios, alts[(c + j + 1) % |alts|]).value], Volume(opts))
  {
    if k > 0 {
      CyclePlaysWithoutAudio(audios, b, cfg, opts, k - 1);
    }
  }

  /**
   * With the index unset, the first alternate played is the second entry of the list, not
   * the first, and the index moves onto it; the `audio` branch's playback comes before it.
   */
  lemma FirstAlternateIsSecondEntry(audios: seq<Asset>, body: Body, audio: AudioSpec, alts: seq<string>,
                                    selfOnly: bool, opts: PlayOptions)
    requires |alts| >= 2 && Lookup(audios, alts[1]).Some?
    ensures var e := Trigger(audios, body, SoundConfig(audio, Some(alts), 0, selfOnly), opts);
      && !e.failed
      && e.index == 1
      && e.plays == AudioBranch(audios, body, audio, opts) + [PlayClone(body, audios[Lookup(audios, alts[1]).value], Volume(opts))]
  {
  }
}
