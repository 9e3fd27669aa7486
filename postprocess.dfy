/** The post-process effect chain: an ordered list of named full-screen
    effects, each of which can be switched on and off, run one after the
    other through two ping-pong framebuffers. GL handles are natural
    numbers; the GL calls that `process` makes are recorded as a trace of
    passes together with the GL state it leaves behind. */
module PostProcess {
  import opened Options

  /** GL_SRC_ALPHA and GL_ONE, the default blend factors of an effect. */
  const GL_SRC_ALPHA: nat := 0x0302
  const GL_ONE: nat := 1

  /** A PostProcessEffect. `hasSetup` says whether its setup callback is set;
      what the callback does is not part of this model. */
  datatype Effect = Effect(
    name: string,
    shader: nat,
    hasSetup: bool,
    useBlending: bool,
    blendSrc: nat,
    blendDst: nat,
    needsDepth: bool,
    enabled: bool)

  /** PostProcessEffect(name, shader) with every other member at its default. */
  function NewEffect(name: string, shader: nat): (e: Effect)
    ensures e.name == name && e.shader == shader
    ensures e.enabled && !e.useBlending && !e.needsDepth && !e.hasSetup
    ensures e.blendSrc == GL_SRC_ALPHA && e.blendDst == GL_ONE
  {
    Effect(name, shader, false, false, GL_SRC_ALPHA, GL_ONE, false, true)
  }

  // ---------------------------------------------------------------------
  // The effect list

  /** The number of effects called n. */
  function Named(s: seq<Effect>, n: string): nat {
    if s == [] then 0 else Named(s[..|s| - 1], n) + (if s[|s| - 1].name == n then 1 else 0)
  }

  /** The list with every effect called n taken out, the others kept in order:
      what erase(remove_if(...)) leaves. */
  function RemoveNamed(s: seq<Effect>, n: string): seq<Effect> {
    if s == [] then []
    else RemoveNamed(s[..|s| - 1], n) + (if s[|s| - 1].name == n then [] else [s[|s| - 1]])
  }

  /** The enabled effects, in list order. */
  function Active(s: seq<Effect>): seq<Effect> {
    if s == [] then [] else Active(s[..|s| - 1]) + (if s[|s| - 1].enabled then [s[|s| - 1]] else [])
  }

  /** The number of enabled effects. */
  function ActiveCount(s: seq<Effect>): nat {
    if s == [] then 0 else ActiveCount(s[..|s| - 1]) + (if s[|s| - 1].enabled then 1 else 0)
  }

  /** The position of the first effect called n, if there is one. */
  function FirstIndex(s: seq<Effect>, n: string): (r: Option<nat>)
    ensures r.Some? ==> r.value < |s| && s[r.value].name == n
                        && forall j :: 0 <= j < r.value ==> s[j].name != n
    ensures r.None? ==> forall j :: 0 <= j < |s| ==> s[j].name != n
  {
    if s == [] then None
    else if s[0].name == n then Some(0)
    else match FirstIndex(s[1..], n)
      case None => None
      case Some(k) => Some(k + 1)
  }

  /** The list after the first effect called n has been given the flag `on`. */
  function SetEnabled(s: seq<Effect>, n: string, on: bool): seq<Effect> {
    match FirstIndex(s, n)
    case None => s
    case Some(k) => s[k := s[k].(enabled := on)]
  }

  lemma {:induction false} SplitLast(s: seq<Effect>, i: nat)
    requires i < |s|
    ensures s[..i + 1][..i] == s[..i] && s[..i + 1][i] == s[i]
  {
  }

  /** Appending an effect adds one more effect of that name: nothing keeps
      the names unique. */
  lemma AddKeepsDuplicates(s: seq<Effect>, e: Effect)
    ensures Named(s + [e], e.name) == Named(s, e.name) + 1
  {
    assert (s + [e])[..|s + [e]| - 1] == s;
  }

  /** Removing by name removes every effect of that name and keeps all others. */
  lemma {:induction false} RemoveNamedContents(s: seq<Effect>, n: string)
    ensures |RemoveNamed(s, n)| == |s| - Named(s, n)
    ensures forall e :: e in RemoveNamed(s, n) <==> e in s && e.name != n
  {
    if s != [] {
      RemoveNamedContents(s[..|s| - 1], n);
      assert s == s[..|s| - 1] + [s[|s| - 1]];
    }
  }

  /** Removal commutes with concatenation, so the effects that stay keep
      their relative order. */
  lemma {:induction false} RemoveNamedAppend(a: seq<Effect>, b: seq<Effect>, n: string)
    ensures RemoveNamed(a + b, n) == RemoveNamed(a, n) + RemoveNamed(b, n)
  {
    if b == [] {
      assert a + b == a;
    } else {
      assert (a + b)[..|a + b| - 1] == a + b[..|b| - 1];
      RemoveNamedAppend(a, b[..|b| - 1], n);
    }
  }

  /** Removing a name that is not in the list leaves the list as it was. */
  lemma {:induction false} RemoveAbsent(s: seq<Effect>, n: string)
    requires Named(s, n) == 0
    ensures RemoveNamed(s, n) == s
  {
    if s != [] {
      RemoveAbsent(s[..|s| - 1], n);
      assert s == s[..|s| - 1] + [s[|s| - 1]];
    }
  }

  /** Enabling or disabling touches the first effect of that name and only its
      flag; an unknown name changes nothing. */
  lemma SetEnabledOnlyFirst(s: seq<Effect>, n: string, on: bool)
    ensures |SetEnabled(s, n, on)| == |s|
    ensures FirstIndex(s, n).None? ==> SetEnabled(s, n, on) == s
    ensures FirstIndex(s, n).Some? ==>
      var k := FirstIndex(s, n).value;
      SetEnabled(s, n, on)[k] == s[k].(enabled := on)
      && forall j :: 0 <= j < |s| && j != k ==> SetEnabled(s, n, on)[j] == s[j]
  {
  }

  /** The active count is the length of the list of enabled effects, and it is
      zero exactly when no effect is enabled. */
  lemma {:induction false} ActiveCountIsActive(s: seq<Effect>)
    ensures ActiveCount(s) == |Active(s)| <= |s|
    ensures forall e :: e in Active(s) <==> e in s && e.enabled
    ensures ActiveCount(s) == 0 <==> forall j :: 0 <= j < |s| ==> !s[j].enabled
  {
    if s != [] {
      var init := s[..|s| - 1];
      ActiveCountIsActive(init);
      assert s == init + [s[|s| - 1]];
      assert forall j :: 0 <= j < |init| ==> s[j] == init[j];
    }
  }

  // ---------------------------------------------------------------------
  // The schedule `process` runs

  /** Where a pass draws: one of the two ping-pong framebuffers, or the caller's
      output framebuffer. */
  datatype Target = ToPingPong(slot: nat) | ToOutput

  /** What a pass samples: the caller's input texture or a ping-pong texture. */
  datatype Source = FromInput | FromPingPong(slot: nat)

  datatype Blend = BlendOff | BlendOn(src: nat, dst: nat)

  /** One renderQuad call: the program, the framebuffer bound and the texture
      sampled (by role and by handle), the blend setting, whether the depth
      texture is bound to unit 1 and whether the setup callback runs. */
  datatype Pass = Pass(
    shader: nat,
    target: Target,
    fbo: nat,
    source: Source,
    texture: nat,
    blend: Blend,
    depthBound: bool,
    setupCalled: bool)

  /** The GL state `process` touches: the bound framebuffer, the viewport size,
      and the depth-test and blend switches. */
  datatype GlState = GlState(framebuffer: nat, viewportWidth: int, viewportHeight: int,
                             depthTest: bool, blend: bool)

  /** What one call of `process` does: its passes, then the state it leaves. */
  datatype Frame = Frame(passes: seq<Pass>, after: GlState)

  function TargetAt(i: nat, n: nat): Target {
    if i == n - 1 then ToOutput else ToPingPong(i % 2)
  }

  function SourceAt(i: nat): Source {
    if i == 0 then FromInput else FromPingPong((i - 1) % 2)
  }

  function BlendOf(e: Effect): Blend {
    if e.useBlending then BlendOn(e.blendSrc, e.blendDst) else BlendOff
  }

  /** The bind decision of renderQuad for the depth texture. */
  function DepthBound(e: Effect, depthTexture: nat): bool {
    e.needsDepth && depthTexture != 0
  }

  function PassAt(e: Effect, i: nat, n: nat, input: nat, depth: nat, output: nat,
                  fbos: seq<nat>, texs: seq<nat>): Pass
    requires |fbos| == 2 && |texs| == 2
  {
    var target := TargetAt(i, n);
    var source := SourceAt(i);
    Pass(e.shader, target,
         if target.ToOutput? then output else fbos[target.slot],
         source,
         if source.FromInput? then input else texs[source.slot],
         BlendOf(e), DepthBound(e, depth), e.hasSetup)
  }

  /** One pass per active effect, in order. */
  function Schedule(active: seq<Effect>, input: nat, depth: nat, output: nat,
                    fbos: seq<nat>, texs: seq<nat>): (ps: seq<Pass>)
    requires |fbos| == 2 && |texs| == 2
    ensures |ps| == |active|
  {
    seq(|active|, i requires 0 <= i < |active| =>
      PassAt(active[i], i, |active|, input, depth, output, fbos, texs))
  }

  /** The whole of `process`: early exits, then the schedule. */
  function ProcessFrame(effects: seq<Effect>, initialized: bool, fbos: seq<nat>, texs: seq<nat>,
                        input: nat, depth: nat, output: nat, width: int, height: int,
                        before: GlState): Frame
    requires |fbos| == 2 && |texs| == 2
  {
    if !initialized || effects == [] then
      Frame([], GlState(output, width, height, false, false))
    else if Active(effects) == [] then
      Frame([], before.(depthTest := false))
    else
      Frame(Schedule(Active(effects), input, depth, output, fbos, texs),
            GlState(0, width, height, true, false))
  }

  /** Nothing is drawn before initialisation or with an empty list: the output
      framebuffer is bound, and depth testing and blending are switched off. */
  lemma ProcessIdle(effects: seq<Effect>, initialized: bool, fbos: seq<nat>, texs: seq<nat>,
                    input: nat, depth: nat, output: nat, width: int, height: int, before: GlState)
    requires |fbos| == 2 && |texs| == 2
    requires !initialized || effects == []
    ensures var f := ProcessFrame(effects, initialized, fbos, texs, input, depth, output, width, height, before);
      f.passes == [] && f.after.framebuffer == output && !f.after.depthTest && !f.after.blend
      && f.after.viewportWidth == width && f.after.viewportHeight == height
  {
  }

  /** With every effect disabled nothing is drawn, and depth testing stays
      switched off: the early return does not restore it. */
  lemma ProcessNoneEnabled(effects: seq<Effect>, fbos: seq<nat>, texs: seq<nat>,
                           input: nat, depth: nat, output: nat, width: int, height: int, before: GlState)
    requires |fbos| == 2 && |texs| == 2
    requires effects != [] && forall j :: 0 <= j < |effects| ==> !effects[j].enabled
    ensures var f := ProcessFrame(effects, true, fbos, texs, input, depth, output, width, height, before);
      f.passes == [] && f.after == before.(depthTest := false)
  {
    ActiveCountIsActive(effects);
  }

  /** With at least one enabled effect, there is one pass per enabled effect,
      in list order, and afterwards blending is off, depth testing on and the
      default framebuffer bound. */
  lemma ProcessRuns(effects: seq<Effect>, fbos: seq<nat>, texs: seq<nat>,
                    input: nat, depth: nat, output: nat, width: int, height: int, before: GlState)
    requires |fbos| == 2 && |texs| == 2
    requires exists j :: 0 <= j < |effects| && effects[j].enabled
    ensures var f := ProcessFrame(effects, true, fbos, texs, input, depth, output, width, height, before);
      |f.passes| == ActiveCount(effects) >= 1
      && (forall i :: 0 <= i < |f.passes| ==> f.passes[i].shader == Active(effects)[i].shader)
      && f.after == GlState(0, width, height, true, false)
  {
    ActiveCountIsActive(effects);
  }

  /** Every pass but the last draws into ping-pong framebuffer i mod 2, the last
      into the output framebuffer; the first samples the input texture and every
      later one the ping-pong texture the pass before it drew. */
  lemma ScheduleTargetsAndSources(active: seq<Effect>, input: nat, depth: nat, output: nat,
                                  fbos: seq<nat>, texs: seq<nat>, i: nat)
    requires |fbos| == 2 && |texs| == 2 && i < |active|
    ensures var p := Schedule(active, input, depth, output, fbos, texs)[i];
      (i < |active| - 1 ==> p.target == ToPingPong(i % 2) && p.fbo == fbos[i % 2])
      && (i == |active| - 1 ==> p.target == ToOutput && p.fbo == output)
      && (i == 0 ==> p.source == FromInput && p.texture == input)
      && (i > 0 ==> p.source == FromPingPong((i - 1) % 2) && p.texture == texs[(i - 1) % 2])
  {
  }

  /** No pass samples the ping-pong texture of the framebuffer it draws into,
      and each pass after the first samples exactly what the previous pass drew. */
  lemma ScheduleChains(active: seq<Effect>, input: nat, depth: nat, output: nat,
                       fbos: seq<nat>, texs: seq<nat>)
    requires |fbos| == 2 && |texs| == 2
    ensures var ps := Schedule(active, input, depth, output, fbos, texs);
      (forall i :: 0 <= i < |ps| && ps[i].target.ToPingPong? && ps[i].source.FromPingPong? ==>
         ps[i].target.slot != ps[i].source.slot)
      && (forall i :: 0 <= i < |ps| - 1 ==>
         ps[i].target.ToPingPong? && ps[i + 1].source == FromPingPong(ps[i].target.slot))
  {
  }

  /** A single enabled effect reads the input and writes the output: no
      ping-pong buffer is touched. */
  lemma ScheduleSingle(e: Effect, input: nat, depth: nat, output: nat, fbos: seq<nat>, texs: seq<nat>)
    requires |fbos| == 2 && |texs| == 2
    ensures Schedule([e], input, depth, output, fbos, texs)
         == [Pass(e.shader, ToOutput, output, FromInput, input, BlendOf(e), DepthBound(e, depth), e.hasSetup)]
  {
  }

  /** Per pass, blending is on exactly when the effect asks for it, with the
      effect's own factors, and the depth texture is bound exactly when the
      effect needs it and one was given. */
  lemma ScheduleSettings(active: seq<Effect>, input: nat, depth: nat, output: nat,
                         fbos: seq<nat>, texs: seq<nat>, i: nat)
    requires |fbos| == 2 && |texs| == 2 && i < |active|
    ensures var p := Schedule(active, input, depth, output, fbos, texs)[i];
      (p.blend.BlendOn? <==> active[i].useBlending)
      && (p.blend.BlendOn? ==> p.blend.src == active[i].blendSrc && p.blend.dst == active[i].blendDst)
      && (p.depthBound <==> active[i].needsDepth && depth != 0)
  {
  }

  /** A freshly made effect draws without blending and without the depth texture. */
  lemma NewEffectPlain(name: string, shader: nat, i: nat, n: nat, input: nat, depth: nat, output: nat,
                       fbos: seq<nat>, texs: seq<nat>)
    requires |fbos| == 2 && |texs| == 2
    ensures var p := PassAt(NewEffect(name, shader), i, n, input, depth, output, fbos, texs);
      p.blend == BlendOff && !p.depthBound && !p.setupCalled && p.shader == shader
  {
  }

  /** What cleanup does to one handle pair: both are zeroed when the first is
      non-zero, otherwise the pair is left alone. */
  function Cleaned(pair: seq<nat>): seq<nat>
    requires |pair| == 2
  {
    if pair[0] != 0 then [0, 0] else pair
  }

  /** Cleaning twice is cleaning once, and afterwards the first handle is zero. */
  lemma CleanedIdempotent(pair: seq<nat>)
    requires |pair| == 2
    ensures |Cleaned(pair)| == 2 && Cleaned(pair)[0] == 0
    ensures Cleaned(Cleaned(pair)) == Cleaned(pair)
    ensures pair[0] != 0 ==> Cleaned(pair) == [0, 0]
  {
  }

  // ---------------------------------------------------------------------
  // The pipeline object

  class PostProcessPipeline {
    var effects: seq<Effect>
    var fullscreenVao: nat
    const pingpongFbo: array<nat>
    const pingpongTextures: array<nat>
    var width: int
    var height: int
    var initialized: bool

    /** Exactly two ping-pong framebuffers and two textures, however long the chain. */
    predicate Valid()
      reads this
    {
      pingpongFbo.Length == 2 && pingpongTextures.Length == 2 && pingpongFbo != pingpongTextures
    }

    constructor ()
      ensures Valid() && fresh(pingpongFbo) && fresh(pingpongTextures)
      ensures effects == [] && fullscreenVao == 0
      ensures pingpongFbo[..] == [0, 0] && pingpongTextures[..] == [0, 0]
      ensures width == 0 && height == 0 && !initialized
    {
      effects := [];
      fullscreenVao := 0;
      pingpongFbo := new nat[2](_ => 0);
      pingpongTextures := new nat[2](_ => 0);
      width := 0;
      height := 0;
      initialized := false;
    }

    /** The handles glGenFramebuffers and glGenTextures return are passed in. */
    method Initialize(w: int, h: int, vao: nat, newFbos: seq<nat>, newTextures: seq<nat>)
      requires Valid() && |newFbos| == 2 && |newTextures| == 2
      modifies this, pingpongFbo, pingpongTextures
      ensures Valid() && effects == old(effects)
      ensures width == w && height == h && fullscreenVao == vao && initialized
      ensures pingpongFbo[..] == newFbos && pingpongTextures[..] == newTextures
    {
      width := w;
      height := h;
      fullscreenVao := vao;
      CreatePingPongBuffers(newFbos, newTextures);
      initialized := true;
    }

    method CreatePingPongBuffers(newFbos: seq<nat>, newTextures: seq<nat>)
      requires Valid() && |newFbos| == 2 && |newTextures| == 2
      modifies pingpongFbo, pingpongTextures
      ensures pingpongFbo[..] == newFbos && pingpongTextures[..] == newTextures
    {
      pingpongFbo[0], pingpongFbo[1] := newFbos[0], newFbos[1];
      pingpongTextures[0], pingpongTextures[1] := newTextures[0], newTextures[1];
    }

    method AddEffect(e: Effect)
      modifies this`effects
      ensures effects == old(effects) + [e]
    {
      effects := effects + [e];
    }

    method RemoveEffect(name: string)
      modifies this`effects
      ensures effects == RemoveNamed(old(effects), name)
    {
      var kept: seq<Effect> := [];
      var i := 0;
      while i < |effects|
        invariant 0 <= i <= |effects|
        invariant effects == old(effects)
        invariant kept == RemoveNamed(effects[..i], name)
      {
        SplitLast(effects, i);
        if effects[i].name != name {
          kept := kept + [effects[i]];
        }
        i := i + 1;
      }
      assert effects[..|effects|] == effects;
      effects := kept;
    }

    method SetEffectEnabled(name: string, on: bool)
      modifies this`effects
      ensures effects == SetEnabled(old(effects), name, on)
    {
      var i := 0;
      while i < |effects|
        invariant 0 <= i <= |effects| && effects == old(effects)
        invariant forall j :: 0 <= j < i ==> effects[j].name != name
      {
        if effects[i].name == name {
          effects := effects[i := effects[i].(enabled := on)];
          break;
        }
        i := i + 1;
      }
    }

    method GetActiveEffectCount() returns (count: nat)
      ensures count == ActiveCount(effects)
    {
      count := 0;
      var i := 0;
      while i < |effects|
        invariant 0 <= i <= |effects|
        invariant count == ActiveCount(effects[..i])
      {
        SplitLast(effects, i);
        if effects[i].enabled {
          count := count + 1;
        }
        i := i + 1;
      }
      assert effects[..|effects|] == effects;
    }

    method Clear()
      modifies this`effects
      ensures effects == []
    {
      effects := [];
    }

    method Cleanup()
      requires Valid()
      modifies pingpongFbo, pingpongTextures
      ensures pingpongFbo[..] == Cleaned(old(pingpongFbo[..]))
      ensures pingpongTextures[..] == Cleaned(old(pingpongTextures[..]))
    {
      if pingpongFbo[0] != 0 {
        pingpongFbo[0], pingpongFbo[1] := 0, 0;
      }
      if pingpongTextures[0] != 0 {
        pingpongTextures[0], pingpongTextures[1] := 0, 0;
      }
    }

    /** Same size: nothing happens. Otherwise the size is stored, and an
        initialised pipeline frees its ping-pong buffers and makes new ones
        (the handles the GL returns are passed in). */
    method Resize(w: int, h: int, newFbos: seq<nat>, newTextures: seq<nat>)
      requires Valid() && |newFbos| == 2 && |newTextures| == 2
      modifies this, pingpongFbo, pingpongTextures
      ensures Valid() && effects == old(effects) && initialized == old(initialized)
      ensures fullscreenVao == old(fullscreenVao)
      ensures w == old(width) && h == old(height) ==>
        width == w && height == h
        && pingpongFbo[..] == old(pingpongFbo[..]) && pingpongTextures[..] == old(pingpongTextures[..])
      ensures !(w == old(width) && h == old(height)) ==>
        width == w && height == h
        && pingpongFbo[..] == (if initialized then newFbos else old(pingpongFbo[..]))
        && pingpongTextures[..] == (if initialized then newTextures else old(pingpongTextures[..]))
    {
      if w == width && h == height {
        return;
      }
      width := w;
      height := h;
      if initialized {
        Cleanup();
        CreatePingPongBuffers(newFbos, newTextures);
      }
    }

    /** The renderQuad call for one effect: which program, texture and depth
        binding it uses. */
    method RenderQuad(e: Effect, target: Target, fbo: nat, source: Source, texture: nat,
                      depthTexture: nat, blend: Blend) returns (p: Pass)
      ensures p == Pass(e.shader, target, fbo, source, texture, blend, DepthBound(e, depthTexture), e.hasSetup)
    {
      var depthBound := false;
      if e.needsDepth && depthTexture != 0 {
        depthBound := true;
      }
      p := Pass(e.shader, target, fbo, source, texture, blend, depthBound, e.hasSetup);
    }

    method Process(inputTexture: nat, depthTexture: nat, outputFbo: nat, w: int, h: int,
                   before: GlState) returns (f: Frame)
      requires Valid()
      ensures f == ProcessFrame(effects, initialized, pingpongFbo[..], pingpongTextures[..],
                                inputTexture, depthTexture, outputFbo, w, h, before)
    {
      if !initialized || effects == [] {
        return Frame([], GlState(outputFbo, w, h, false, false));
      }
      var state := before.(depthTest := false);

      var active: seq<Effect> := [];
      var k := 0;
      while k < |effects|
        invariant 0 <= k <= |effects|
        invariant active == Active(effects[..k])
      {
        SplitLast(effects, k);
        if effects[k].enabled {
          active := active + [effects[k]];
        }
        k := k + 1;
      }
      assert effects[..|effects|] == effects;
      if active == [] {
        return Frame([], state);
      }

      ghost var fbos, texs := pingpongFbo[..], pingpongTextures[..];
      var passes: seq<Pass> := [];
      var currentInput := inputTexture;
      var currentSource := FromInput;
      var pingpong := true;
      var i := 0;
      while i < |active|
        invariant 0 <= i <= |active|
        invariant i < |active| ==> pingpong == (i % 2 == 0)
        invariant i < |active| ==> currentSource == SourceAt(i)
        invariant i < |active| ==> currentInput == (if i == 0 then inputTexture else texs[(i - 1) % 2])
        invariant passes == Schedule(active, inputTexture, depthTexture, outputFbo, fbos, texs)[..i]
        invariant i > 0 ==> state.viewportWidth == w && state.viewportHeight == h
      {
        var e := active[i];
        var target, fbo;
        if i == |active| - 1 {
          target, fbo := ToOutput, outputFbo;
        } else {
          var slot := if pingpong then 0 else 1;
          target, fbo := ToPingPong(slot), pingpongFbo[slot];
        }
        var blend := if e.useBlending then BlendOn(e.blendSrc, e.blendDst) else BlendOff;
        state := state.(framebuffer := fbo, viewportWidth := w, viewportHeight := h,
                        blend := e.useBlending);
        var p := RenderQuad(e, target, fbo, currentSource, currentInput, depthTexture, blend);
        passes := passes + [p];
        if i < |active| - 1 {
          var slot := if pingpong then 0 else 1;
          currentInput := pingpongTextures[slot];
          currentSource := FromPingPong(slot);
          pingpong := !pingpong;
        }
        i := i + 1;
      }
      assert passes == Schedule(active, inputTexture, depthTexture, outputFbo, fbos, texs);
      f := Frame(passes, state.(blend := false, depthTest := true, framebuffer := 0));
    }
  }
}
