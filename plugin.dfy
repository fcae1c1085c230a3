/**
 * The MatterSound plugin object: construction from a manifest, the completion of loading,
 * the per-body initialisation hook, playing one body's sound, and the `collisionStart`
 * handler that walks the pairs of an event.
 */
module Plugin {
  import opened Optional
  import opened Assets
  import opened Bodies
  import opened Dispatch
  import opened Properties

  /** The bodies taking part in a batch of pairs. */
  ghost function BodiesOf(pairs: seq<Pair>): set<Body> {
    (set p | p in pairs :: p.bodyA) + (set p | p in pairs :: p.bodyB)
  }

  /** Every body in `bodies` has been given a sound configuration. */
  ghost predicate Initialized(bodies: set<Body>)
    reads bodies
  {
    forall b :: b in bodies ==> b.sound.Some?
  }

  /** The configurations of `bodies` as they stand now. */
  ghost function Snapshot(bodies: set<Body>): (m: map<Body, SoundConfig>)
    requires Initialized(bodies)
    reads bodies
    ensures m.Keys == bodies
  {
    map b | b in bodies :: b.sound.value
  }

  class MatterSound {
    /** `options.audios`, the manifest given at construction. */
    const manifest: seq<AudioDef>
    /** `this.audios`: absent until loading has completed. */
    var audios: Option<seq<Asset>>
    /** Every playback and resolver call issued so far, in order. */
    var log: seq<Playback>

    /** A constructed plugin only ever holds a manifest whose every entry was accepted. */
    ghost predicate Valid()
      reads this
    {
      forall i :: 0 <= i < |manifest| ==> ValidDef(manifest[i])
    }

    constructor Loading(manifest: seq<AudioDef>)
      requires forall i :: 0 <= i < |manifest| ==> ValidDef(manifest[i])
      ensures Valid() && this.manifest == manifest && audios.None? && log == []
    {
      this.manifest := manifest;
      audios := None;
      log := [];
    }

    /**
     * `new MatterSound({audios: manifest})`. Entries are checked in order and the load of
     * each accepted entry is requested (`requested` lists their sources); the first entry
     * without a non-empty `name` and `src` aborts construction with "invalid audioDef",
     * so no entry after it is ever requested.
     */
    static method Create(manifest: seq<AudioDef>) returns (plugin: MatterSound?, requested: seq<string>)
      ensures |requested| <= |manifest|
      ensures forall j :: 0 <= j < |requested| ==> ValidDef(manifest[j]) && manifest[j].src == Some(requested[j])
      ensures plugin == null <==> |requested| < |manifest|
      ensures plugin == null ==> !ValidDef(manifest[|requested|])
      ensures plugin != null ==>
        fresh(plugin) && plugin.Valid() && plugin.manifest == manifest && plugin.audios.None? && plugin.log == []
    {
      requested := [];
      var i := 0;
      while i < |manifest|
        invariant i == |requested| <= |manifest|
        invariant forall j :: 0 <= j < i ==> ValidDef(manifest[j]) && manifest[j].src == Some(requested[j])
      {
        var def := manifest[i];
        if !ValidDef(def) {
          plugin := null;
          return;
        }
        requested := requested + [def.src.value];
        i := i + 1;
      }
      plugin := new MatterSound.Loading(manifest);
    }

    /**
     * The continuation of `ready`: `elements[i]` is the element loaded for entry `i`, and
     * the table lists the manifest's entries in order, each with its element attached.
     */
    method Ready(elements: seq<Handle>)
      requires Valid() && |elements| == |manifest|
      modifies this`audios
      ensures Valid() && audios.Some? && |audios.value| == |manifest|
      ensures forall i :: 0 <= i < |manifest| ==>
        audios.value[i] == Asset(manifest[i].name.value, manifest[i].src.value, elements[i])
    {
      var table: seq<Asset> := [];
      var i := 0;
      while i < |elements|
        invariant i == |table| <= |elements|
        invariant forall j :: 0 <= j < i ==>
          table[j] == Asset(manifest[j].name.value, manifest[j].src.value, elements[j])
      {
        var def := manifest[i];
        table := table + [Asset(def.name.value, def.src.value, elements[i])];
        i := i + 1;
      }
      audios := Some(table);
    }

    /** The `Body.create` hook: a body without a configuration gets `{}`; one with a configuration keeps it. */
    method InitBody(body: Body)
      modifies body
      ensures body.sound.Some?
      ensures old(body.sound).Some? ==> body.sound == old(body.sound)
      ensures old(body.sound).None? ==> body.sound == Some(EmptyConfig)
    {
      body.sound := Some(body.sound.GetOr(EmptyConfig));
    }

    /**
     * `playBodyCollisionAudio(body, opts)`: plays the fixed asset or calls the resolver, then
     * advances the alternates. `failed` reports the error raised when the targeted
     * alternate is missing from the table.
     */
    method PlayBodyCollisionAudio(body: Body, opts: PlayOptions) returns (failed: bool)
      requires audios.Some? && body.sound.Some?
      modifies this`log, body
      ensures var e := Trigger(audios.value, body, old(body.sound.value), opts);
        && log == old(log) + e.plays
        && body.sound == Some(old(body.sound.value).(currentAudioIndex := e.index))
        && failed == e.failed
    {
      var table := audios.value;
      var cfg := body.sound.value;
      var volume := Volume(opts);
      match cfg.audio {
        case Fixed(name) =>
          var k := Lookup(table, name);
          if k.Some? {
            log := log + [PlayClone(body, table[k.value], volume)];
          }
        case Resolver(id) =>
          log := log + [CallResolver(id, body, opts.otherBody, volume)];
        case NoAudio =>
      }
      assert log == old(log) + AudioBranch(table, body, cfg.audio, opts);
      failed := false;
      if cfg.alternateAudios.Some? {
        var alts := cfg.alternateAudios.value;
        var target := if |alts| > cfg.currentAudioIndex + 1 then cfg.currentAudioIndex + 1 else 0;
        var k := if target < |alts| then Lookup(table, alts[target]) else None;
        if k.None? {
          // reading `targetAudio.name` of an undefined lookup result raises
          failed := true;
          return;
        }
        log := log + [PlayClone(body, table[k.value], volume)];
        body.sound := Some(cfg.(currentAudioIndex := target));
      }
    }

    /**
     * The heap agrees with the model state `st`: the log is `log0` followed by what `st`
     * played, and every body in `bodies` holds the configuration `st` gives it.
     */
    ghost predicate Mirrors(st: RunState, log0: seq<Playback>, bodies: set<Body>)
      reads this, bodies
    {
      && st.configs.Keys == bodies
      && log == log0 + st.plays
      && forall b :: b in bodies ==> b.sound == Some(st.configs[b])
    }

    /** One request `c` issued from a state the heap mirrors leaves the heap mirroring one more step. */
    method Request(c: Call, ghost table: seq<Asset>, ghost st: RunState, ghost log0: seq<Playback>, ghost bodies: set<Body>)
      returns (failed: bool)
      requires audios == Some(table) && c.body in bodies
      requires !st.failed && Mirrors(st, log0, bodies)
      modifies this`log, c.body
      ensures Mirrors(Step(table, st, c), log0, bodies) && failed == Step(table, st, c).failed
    {
      failed := PlayBodyCollisionAudio(c.body, c.opts);
      ghost var next := Step(table, st, c);
      assert log == log0 + next.plays;
      forall x | x in bodies
        ensures x.sound == Some(next.configs[x])
      {
        if x != c.body {
          assert x.sound == old(x.sound);
        }
      }
    }

    /**
     * The callback run for one pair of a `collisionStart` event: the `selfOnly` rule picks
     * who plays; an error raised by A's request means B's never happens.
     */
    method HandlePair(p: Pair, ghost table: seq<Asset>, ghost st: RunState, ghost log0: seq<Playback>,
                      ghost bodies: set<Body>)
      returns (failed: bool, ghost next: RunState)
      requires audios == Some(table) && p.bodyA in bodies && p.bodyB in bodies
      requires !st.failed && Mirrors(st, log0, bodies)
      modifies this`log, p.bodyA, p.bodyB
      ensures next == Run(table, st, PairCalls(p, st.configs[p.bodyA].selfOnly, st.configs[p.bodyB].selfOnly))
      ensures Mirrors(next, log0, bodies) && failed == next.failed
    {
      ghost var aSelfOnly, bSelfOnly := st.configs[p.bodyA].selfOnly, st.configs[p.bodyB].selfOnly;
      ghost var planned := Run(table, st, PairCalls(p, aSelfOnly, bSelfOnly));
      PairRun(table, st, p, aSelfOnly, bSelfOnly);
      if p.bodyA.sound.value.selfOnly {
        assert aSelfOnly;
        next := Step(table, st, CallFor(p, A));
        assert next == planned;
        failed := Request(CallFor(p, A), table, st, log0, bodies);
      } else if p.bodyB.sound.value.selfOnly {
        assert !aSelfOnly && bSelfOnly;
        next := Step(table, st, CallFor(p, B));
        assert next == planned;
        failed := Request(CallFor(p, B), table, st, log0, bodies);
      } else {
        assert !aSelfOnly && !bSelfOnly;
        failed, next := HandleBoth(p, table, st, log0, bodies);
      }
    }

    /** Neither side is `selfOnly`: A plays, then B, unless A's request raised an error. */
    method HandleBoth(p: Pair, ghost table: seq<Asset>, ghost st: RunState, ghost log0: seq<Playback>,
                      ghost bodies: set<Body>)
      returns (failed: bool, ghost next: RunState)
      requires audios == Some(table) && p.bodyA in bodies && p.bodyB in bodies
      requires !st.failed && Mirrors(st, log0, bodies)
      modifies this`log, p.bodyA, p.bodyB
      ensures next == Step(table, Step(table, st, CallFor(p, A)), CallFor(p, B))
      ensures Mirrors(next, log0, bodies) && failed == next.failed
    {
      ghost var mid := Step(table, st, CallFor(p, A));
      next := Step(table, mid, CallFor(p, B));
      failed := Request(CallFor(p, A), table, st, log0, bodies);
      if !failed {
        failed := Request(CallFor(p, B), table, mid, log0, bodies);
      } else {
        assert p.bodyB in mid.configs;
        assert next == mid;
      }
    }

    /**
     * Part way through a `collisionStart` event: `i` pairs are done, the heap mirrors the
     * model state `st`, and running the requests of the remaining pairs from `st` ends in `final`.
     */
    ghost predicate Progress(table: seq<Asset>, pairs: seq<Pair>, i: nat, cfgs: map<Body, SoundConfig>,
                             st: RunState, final: RunState, log0: seq<Playback>, bodies: set<Body>)
      reads this, bodies
    {
      && audios == Some(table)
      && cfgs.Keys == bodies
      && Mirrors(st, log0, bodies)
      && Planned(table, pairs, i, cfgs, st, final)
    }

    /** Handling pair `i` of an event keeps the heap mirroring the model one pair further on. */
    method HandleNext(pairs: seq<Pair>, i: nat, ghost table: seq<Asset>, ghost cfgs: map<Body, SoundConfig>,
                      ghost st: RunState, ghost final: RunState, ghost log0: seq<Playback>, ghost bodies: set<Body>)
      returns (failed: bool, ghost next: RunState)
      requires i < |pairs| && !st.failed
      requires Progress(table, pairs, i, cfgs, st, final, log0, bodies)
      modifies this`log, bodies
      ensures Progress(table, pairs, i + 1, cfgs, next, final, log0, bodies) && failed == next.failed
    {
      var p := pairs[i];
      PlannedStep(table, pairs, i, cfgs, st, final);
      failed, next := HandlePair(p, table, st, log0, bodies);
    }

    /**
     * The `collisionStart` handler: the pairs in order, each under the `selfOnly` rule.
     * An error raised while playing ends the handler, so later requests never happen.
     */
    method CollisionStart(pairs: seq<Pair>) returns (failed: bool)
      requires audios.Some? && Initialized(BodiesOf(pairs))
      modifies this`log, BodiesOf(pairs)
      ensures Covers(pairs, old(Snapshot(BodiesOf(pairs))))
      ensures var cfgs := old(Snapshot(BodiesOf(pairs)));
        var st := Run(audios.value, Start(cfgs), EventCalls(pairs, cfgs));
        && log == old(log) + st.plays
        && failed == st.failed
        && forall b :: b in BodiesOf(pairs) ==> b.sound == Some(st.configs[b])
    {
      ghost var bodies := BodiesOf(pairs);
      ghost var cfgs := Snapshot(bodies);
      ghost var table := audios.value;
      assert Covers(pairs, cfgs) by {
        forall k | 0 <= k < |pairs|
          ensures pairs[k].bodyA in bodies && pairs[k].bodyB in bodies
        {
          assert pairs[k] in pairs;
        }
      }
      ghost var final := Run(table, Start(cfgs), EventCalls(pairs, cfgs));
      ghost var st := Start(cfgs);
      assert pairs[0..] == pairs;
      failed := false;
      var i := 0;
      while i < |pairs| && !failed
        invariant Progress(table, pairs, i, cfgs, st, final, old(log), bodies) && failed == st.failed
      {
        failed, st := HandleNext(pairs, i, table, cfgs, st, final, old(log), bodies);
        i := i + 1;
      }
      if i == |pairs| {
        assert pairs[i..] == [];
      }
    }
  }
}
