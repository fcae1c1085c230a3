/**
 * The collision-to-sound decision of the MatterSound plugin, as values: which bodies of a
 * colliding pair are asked to play, what one request to play produces, and what a whole
 * sequence of requests does to the playback log and to the bodies' configurations.
 */
module Dispatch {
  import opened Optional
  import opened Assets
  import opened Bodies

  /** The options of one `playBodyCollisionAudio` call; `volume` may be left out. */
  datatype PlayOptions = PlayOptions(otherBody: Body?, volume: Option<real>)

  /** The volume in effect: the caller's, or 1 when the caller gave none. */
  function Volume(opts: PlayOptions): real {
    opts.volume.GetOr(1.0)
  }

  /** One observable side effect of playing a body's sound. */
  datatype Playback =
    | PlayClone(body: Body, asset: Asset, volume: real)                   // cloneNode() + play()
    | CallResolver(resolver: nat, body: Body, otherBody: Body?, volume: real)  // audio(body, otherBody, options)

  /**
   * The round-robin step over a list of `len` alternates from the current index: the next
   * entry, or the first one once the end (or beyond) is reached.
   */
  function NextIndex(current: nat, len: nat): (t: nat)
    ensures len > 0 ==> t < len
    ensures current < len ==> t == (current + 1) % len
    ensures current >= len ==> t == 0
  {
    if len > current + 1 then current + 1 else 0
  }

  /** What the `audio` option alone plays: a fixed asset found by name, or a resolver call. */
  function AudioBranch(audios: seq<Asset>, body: Body, audio: AudioSpec, opts: PlayOptions): (r: seq<Playback>)
    ensures |r| <= 1
    ensures forall k :: 0 <= k < |r| ==> r[k].body == body && r[k].volume == Volume(opts)
    ensures audio.NoAudio? ==> r == []
    ensures audio.Fixed? ==> (r == [] <==> forall j :: 0 <= j < |audios| ==> audios[j].name != audio.name)
    ensures audio.Fixed? && r != [] ==>
      Lookup(audios, audio.name).Some? && r[0].PlayClone? && r[0].asset == audios[Lookup(audios, audio.name).value]
    ensures audio.Resolver? ==> r == [CallResolver(audio.id, body, opts.otherBody, Volume(opts))]
  {
    match audio
    case Fixed(name) =>
      LookupFirst(audios, name);
      (match Lookup(audios, name)
       case Some(k) => [PlayClone(body, audios[k], Volume(opts))]
       case None => [])
    case Resolver(id) => [CallResolver(id, body, opts.otherBody, Volume(opts))]
    case NoAudio => []
  }

  /**
   * The outcome of one request to play a body: what was played, the body's new
   * `currentAudioIndex`, and whether the request ended by raising an error.
   */
  datatype Effect = Effect(plays: seq<Playback>, index: nat, failed: bool)

  /** True when the alternate that the next request targets is missing from the table. */
  predicate AlternateMissing(audios: seq<Asset>, alts: seq<string>, current: nat) {
    |alts| == 0 || Lookup(audios, alts[NextIndex(current, |alts|)]).None?
  }

  /**
   * One `playBodyCollisionAudio(body, opts)` against the configuration `cfg`: the `audio`
   * branch first, then, independently, the alternates step.
   */
  function Trigger(audios: seq<Asset>, body: Body, cfg: SoundConfig, opts: PlayOptions): (e: Effect)
    ensures e.failed ==> e.index == cfg.currentAudioIndex
  {
    var first := AudioBranch(audios, body, cfg.audio, opts);
    match cfg.alternateAudios
    case None => Effect(first, cfg.currentAudioIndex, false)
    case Some(alts) =>
      var target := NextIndex(cfg.currentAudioIndex, |alts|);
      var found := if target < |alts| then Lookup(audios, alts[target]) else None;
      match found
      case None => Effect(first, cfg.currentAudioIndex, true)
      case Some(k) => Effect(first + [PlayClone(body, audios[k], Volume(opts))], target, false)
  }

  /**
   * What one request does, as its callers rely on it: the `audio` branch's playback comes
   * first; with no alternates nothing else happens; otherwise the request raises exactly when
   * the targeted alternate is missing (leaving the index alone), and else plays that alternate
   * and moves the index to it. The facts it rests on are `NextIndex`'s closed form and
   * `AudioBranch`'s and `Lookup`'s contracts.
   */
  lemma TriggerOutcome(audios: seq<Asset>, body: Body, cfg: SoundConfig, opts: PlayOptions)
    ensures var e := Trigger(audios, body, cfg, opts);
      var first := AudioBranch(audios, body, cfg.audio, opts);
      && |first| <= |e.plays| <= |first| + 1
      && e.plays[..|first|] == first
      && (cfg.alternateAudios.None? ==> !e.failed && e.index == cfg.currentAudioIndex && e.plays == first)
      && (cfg.alternateAudios.Some? ==>
            (e.failed <==> AlternateMissing(audios, cfg.alternateAudios.value, cfg.currentAudioIndex)))
      && (e.failed ==> e.plays == first)
      && (cfg.alternateAudios.Some? && !e.failed ==>
            var alts := cfg.alternateAudios.value;
            && e.index == NextIndex(cfg.currentAudioIndex, |alts|)
            && e.index < |alts|
            && Lookup(audios, alts[e.index]).Some?
            && |e.plays| == |first| + 1
            && e.plays[|first|] == PlayClone(body, audios[Lookup(audios, alts[e.index]).value], Volume(opts)))
  {
  }

  /** The two sides of a colliding pair. */
  datatype Side = A | B

  /**
   * The `selfOnly` rule: which sides of a pair play, in order. A selfOnly A plays alone;
   * otherwise a selfOnly B plays alone; otherwise A plays, then B.
   */
  function Decide(aSelfOnly: bool, bSelfOnly: bool): (r: seq<Side>)
    ensures (A in r) <==> aSelfOnly || !bSelfOnly
    ensures (B in r) <==> !aSelfOnly
    ensures |r| == (if aSelfOnly || bSelfOnly then 1 else 2)
    ensures |r| == 2 ==> r == [A, B]
  {
    if aSelfOnly then [A] else if bSelfOnly then [B] else [A, B]
  }

  /** A pair reported by a `collisionStart` event. */
  datatype Pair = Pair(bodyA: Body, bodyB: Body)

  /** One request to play: the body and the options it is called with. */
  datatype Call = Call(body: Body, opts: PlayOptions)

  /** The request for one side of a pair: that side's body, the other side as `otherBody`, volume 1. */
  function CallFor(p: Pair, side: Side): Call {
    match side
    case A => Call(p.bodyA, PlayOptions(p.bodyB, Some(1.0)))
    case B => Call(p.bodyB, PlayOptions(p.bodyA, Some(1.0)))
  }

  /** The requests one pair issues, given the two sides' `selfOnly` flags. */
  function PairCalls(p: Pair, aSelfOnly: bool, bSelfOnly: bool): (r: seq<Call>)
    ensures |r| == |Decide(aSelfOnly, bSelfOnly)|
    ensures forall k :: 0 <= k < |r| ==> r[k] == CallFor(p, Decide(aSelfOnly, bSelfOnly)[k])
    ensures forall k :: 0 <= k < |r| ==> r[k].opts.volume == Some(1.0)
    ensures forall k :: 0 <= k < |r| ==>
      (r[k].body == p.bodyA && r[k].opts.otherBody == p.bodyB) || (r[k].body == p.bodyB && r[k].opts.otherBody == p.bodyA)
  {
    if aSelfOnly then [CallFor(p, A)]
    else if bSelfOnly then [CallFor(p, B)]
    else [CallFor(p, A), CallFor(p, B)]
  }

  /** Every body of every pair has a configuration in `cfgs`. */
  predicate Covers(pairs: seq<Pair>, cfgs: map<Body, SoundConfig>) {
    forall k :: 0 <= k < |pairs| ==> pairs[k].bodyA in cfgs && pairs[k].bodyB in cfgs
  }

  /**
   * The requests of a whole event: the pairs in order, each deciding on the `selfOnly`
   * flags in `cfgs` (playing never changes those flags).
   */
  function EventCalls(pairs: seq<Pair>, cfgs: map<Body, SoundConfig>): (r: seq<Call>)
    requires Covers(pairs, cfgs)
    ensures forall k :: 0 <= k < |r| ==> r[k].body in cfgs
    ensures |pairs| <= |r| <= 2 * |pairs|
    decreases |pairs|
  {
    if pairs == [] then []
    else
      var p := pairs[0];
      PairCalls(p, cfgs[p.bodyA].selfOnly, cfgs[p.bodyB].selfOnly) + EventCalls(pairs[1..], cfgs)
  }

  /** The playback log, the bodies' configurations, and whether an error has been raised. */
  datatype RunState = RunState(plays: seq<Playback>, configs: map<Body, SoundConfig>, failed: bool)

  /** One request applied to a state; once an error has been raised nothing further happens. */
  function Step(audios: seq<Asset>, st: RunState, c: Call): (r: RunState)
    requires c.body in st.configs
    ensures r.configs.Keys == st.configs.Keys
    ensures st.failed ==> r == st
    ensures forall b :: b in r.configs ==>
      r.configs[b] == st.configs[b].(currentAudioIndex := r.configs[b].currentAudioIndex)
  {
    if st.failed then st
    else
      var cfg := st.configs[c.body];
      var e := Trigger(audios, c.body, cfg, c.opts);
      RunState(st.plays + e.plays, st.configs[c.body := cfg.(currentAudioIndex := e.index)], e.failed)
  }

  /** The state before any request: nothing played, no error, the given configurations. */
  function Start(cfgs: map<Body, SoundConfig>): RunState {
    RunState([], cfgs, false)
  }

  /** A sequence of requests applied in order to the state `st`. */
  function Run(audios: seq<Asset>, st: RunState, calls: seq<Call>): (r: RunState)
    requires forall k :: 0 <= k < |calls| ==> calls[k].body in st.configs
    ensures r.configs.Keys == st.configs.Keys
    ensures st.failed ==> r == st
    ensures forall b :: b in r.configs ==>
      r.configs[b] == st.configs[b].(currentAudioIndex := r.configs[b].currentAudioIndex)
    decreases |calls|
  {
    if calls == [] then st
    else Step(audios, Run(audios, st, calls[..|calls| - 1]), calls[|calls| - 1])
  }
}
