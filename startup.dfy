/** Start-up (main, initVertexBuffers, initTextures in MultiTexture.js) and
    the image-load callbacks that the listeners installed by initTextures run.
    Start-up is a chain of steps, each of which may fail and end it early; what
    the browser answers to each query is given as a `Platform`. */
module Startup {
  import opened Gl
  import opened Geometry
  import opened DrawGate

  /** The browser's answers to the queries start-up makes. */
  datatype Platform = Platform(
    context: bool,             // getWebGLContext(canvas) returned a context
    shadersReady: bool,        // initShaders(gl, VSHADER_SOURCE, FSHADER_SOURCE) succeeded
    buffer: Option<Buffer>,    // gl.createBuffer()
    positionLocation: int,     // gl.getAttribLocation(gl.program, 'a_Position'), negative when absent
    texCoordLocation: int,     // gl.getAttribLocation(gl.program, 'a_TexCoord'), negative when absent
    texture0: Option<Texture>, // first gl.createTexture()
    texture1: Option<Texture>, // second gl.createTexture()
    sampler0: Option<Sampler>, // gl.getUniformLocation(gl.program, 'u_Sampler0')
    sampler1: Option<Sampler>  // gl.getUniformLocation(gl.program, 'u_Sampler1')
  )

  /** The steps of main, in the order it takes them; each names the failure
      main reports when that step fails. */
  datatype Failure = NoContext | ShadersFailed | VertexInfoFailed | TexturesFailed

  /** Position of a step in main. */
  function Rank(f: Failure): nat
  {
    match f
    case NoContext => 0
    case ShadersFailed => 1
    case VertexInfoFailed => 2
    case TexturesFailed => 3
  }

  /** initVertexBuffers finds everything it looks up. */
  predicate VertexSetupSucceeds(p: Platform)
  {
    p.buffer.Some? && p.positionLocation >= 0 && p.texCoordLocation >= 0
  }

  /** initTextures finds everything it looks up. */
  predicate TextureSetupSucceeds(p: Platform)
  {
    p.texture0.Some? && p.texture1.Some? && p.sampler0.Some? && p.sampler1.Some?
  }

  /** Whether the step of main that reports `f` succeeds on platform `p`. */
  predicate StepSucceeds(p: Platform, f: Failure)
  {
    match f
    case NoContext => p.context
    case ShadersFailed => p.shadersReady
    case VertexInfoFailed => VertexSetupSucceeds(p)
    case TexturesFailed => TextureSetupSucceeds(p)
  }

  /** What the four image-load callbacks capture when initTextures installs
      them: the vertex count and each unit's texture object and sampler. */
  datatype Listeners = Listeners(n: int, texture0: Texture, sampler0: Sampler, texture1: Texture, sampler1: Sampler)

  datatype Outcome = Aborted(failure: Failure) | Listening(listeners: Listeners)

  /** The four places an image can come from: the two file pickers and the two
      drop regions (sky for unit 0, circle for unit 1). */
  datatype Origin = SkyPicker | CirclePicker | SkyDrop | CircleDrop

  /** The commands initVertexBuffers issues before it returns. */
  function VertexSetupCommands(p: Platform): seq<Command>
  {
    if p.buffer.None? then []
    else
      [BindArrayBuffer(p.buffer.value), BufferData(VerticesTexCoords)] +
      if p.positionLocation < 0 then []
      else
        [VertexAttribPointer(p.positionLocation, PositionPointer.size, PositionPointer.strideBytes, PositionPointer.offsetBytes),
         EnableVertexAttribArray(p.positionLocation)] +
        if p.texCoordLocation < 0 then []
        else
          [VertexAttribPointer(p.texCoordLocation, TexCoordPointer.size, TexCoordPointer.strideBytes, TexCoordPointer.offsetBytes),
           EnableVertexAttribArray(p.texCoordLocation)]
  }

  /** initVertexBuffers(gl): returns the vertex count, or -1 as soon as a
      buffer allocation or attribute lookup fails. */
  method InitVertexBuffers(gl: GlContext, p: Platform) returns (n: int)
    modifies gl
    ensures n == -1 || n == VertexCount
    ensures n == VertexCount <==> VertexSetupSucceeds(p)
    ensures gl.commands == old(gl.commands) + VertexSetupCommands(p)
  {
    if p.buffer.None? {
      return -1;
    }
    gl.BindBuffer(p.buffer.value);
    gl.UploadBufferData(VerticesTexCoords);
    if p.positionLocation < 0 {
      return -1;
    }
    gl.SetVertexAttribPointer(p.positionLocation, PositionPointer.size, PositionPointer.strideBytes, PositionPointer.offsetBytes);
    gl.EnableAttribArray(p.positionLocation);
    if p.texCoordLocation < 0 {
      return -1;
    }
    gl.SetVertexAttribPointer(p.texCoordLocation, TexCoordPointer.size, TexCoordPointer.strideBytes, TexCoordPointer.offsetBytes);
    gl.EnableAttribArray(p.texCoordLocation);
    return VertexCount;
  }

  /** initTextures(gl, n): when both texture objects and both sampler
      locations exist it installs the listeners and clears the canvas;
      otherwise it fails and issues nothing. */
  method InitTextures(gl: GlContext, p: Platform, n: int) returns (listeners: Option<Listeners>)
    modifies gl
    ensures listeners.Some? <==> TextureSetupSucceeds(p)
    ensures listeners.Some? ==>
              listeners.value == Listeners(n, p.texture0.value, p.sampler0.value, p.texture1.value, p.sampler1.value)
    ensures gl.commands == old(gl.commands) + (if listeners.Some? then [Clear] else [])
  {
    if p.texture0.None? || p.texture1.None? {
      return None;
    }
    if p.sampler0.None? || p.sampler1.None? {
      return None;
    }
    gl.ClearColorBuffer();
    return Some(Listeners(n, p.texture0.value, p.sampler0.value, p.texture1.value, p.sampler1.value));
  }

  /** Where main ends on platform `p`. */
  function StartOutcome(p: Platform): Outcome
  {
    if !p.context then Aborted(NoContext)
    else if !p.shadersReady then Aborted(ShadersFailed)
    else if !VertexSetupSucceeds(p) then Aborted(VertexInfoFailed)
    else if !TextureSetupSucceeds(p) then Aborted(TexturesFailed)
    else Listening(Listeners(VertexCount, p.texture0.value, p.sampler0.value, p.texture1.value, p.sampler1.value))
  }

  /** The commands main issues on platform `p`. */
  function StartCommands(p: Platform): seq<Command>
  {
    if !p.context || !p.shadersReady then []
    else if !VertexSetupSucceeds(p) then VertexSetupCommands(p)
    else VertexSetupCommands(p) + [ClearColor(0.0, 0.0, 0.0, 1.0)] + (if TextureSetupSucceeds(p) then [Clear] else [])
  }

  /** main(): the steps in order, stopping at the first that fails. `gl` is the
      context getWebGLContext would return; it is left untouched when there is
      none. */
  method Start(gl: GlContext, p: Platform) returns (outcome: Outcome)
    modifies gl
    ensures outcome == StartOutcome(p)
    ensures gl.commands == old(gl.commands) + StartCommands(p)
  {
    if !p.context {
      return Aborted(NoContext);
    }
    if !p.shadersReady {
      return Aborted(ShadersFailed);
    }
    var n := InitVertexBuffers(gl, p);
    if n < 0 {
      return Aborted(VertexInfoFailed);
    }
    gl.SetClearColor(0.0, 0.0, 0.0, 1.0);
    var listeners := InitTextures(gl, p, n);
    if listeners.None? {
      return Aborted(TexturesFailed);
    }
    return Listening(listeners.value);
  }

  /** main stops at the first failing step: it aborts with failure `f` exactly
      when that step fails and every earlier one succeeded, and it installs
      the listeners exactly when every step succeeds. */
  lemma StopsAtFirstFailure(p: Platform, f: Failure)
    ensures StartOutcome(p) == Aborted(f) <==>
              !StepSucceeds(p, f) && forall g: Failure :: Rank(g) < Rank(f) ==> StepSucceeds(p, g)
    ensures StartOutcome(p).Listening? <==> forall g: Failure :: StepSucceeds(p, g)
  {
    match f {
      case NoContext =>
      case ShadersFailed =>
        assert Rank(NoContext) < Rank(f);
      case VertexInfoFailed =>
        assert Rank(NoContext) < Rank(f) && Rank(ShadersFailed) < Rank(f);
      case TexturesFailed =>
        assert Rank(NoContext) < Rank(f) && Rank(ShadersFailed) < Rank(f) && Rank(VertexInfoFailed) < Rank(f);
    }
    if !StartOutcome(p).Listening? {
      assert !StepSucceeds(p, StartOutcome(p).failure);
    }
  }

  /** A successful start hands every callback the vertex count 4 and each
      unit's own texture object and sampler; start-up itself never draws,
      clears the canvas once on success and not at all on failure, and sets the
      opaque black clear colour exactly when it gets past initVertexBuffers. */
  lemma StartEffects(p: Platform)
    ensures StartOutcome(p).Listening? ==>
              StartOutcome(p).listeners.n == VertexCount &&
              Some(StartOutcome(p).listeners.texture0) == p.texture0 &&
              Some(StartOutcome(p).listeners.texture1) == p.texture1 &&
              Some(StartOutcome(p).listeners.sampler0) == p.sampler0 &&
              Some(StartOutcome(p).listeners.sampler1) == p.sampler1
    ensures Draws(StartCommands(p)) == 0
    ensures Clears(StartCommands(p)) == (if StartOutcome(p).Listening? then 1 else 0)
    ensures ClearColor(0.0, 0.0, 0.0, 1.0) in StartCommands(p) <==> p.context && p.shadersReady && VertexSetupSucceeds(p)
  {
    var v := VertexSetupCommands(p);
    assert forall c :: c in v ==> !c.DrawArrays? && !c.Clear? && !c.ClearColor?;
    DrawsZero(v);
    ClearsZero(v);
    if p.context && p.shadersReady && VertexSetupSucceeds(p) {
      var tail: seq<Command> := if TextureSetupSucceeds(p) then [Clear] else [];
      DrawsAppend(v, [ClearColor(0.0, 0.0, 0.0, 1.0)]);
      DrawsAppend(v + [ClearColor(0.0, 0.0, 0.0, 1.0)], tail);
      ClearsAppend(v, [ClearColor(0.0, 0.0, 0.0, 1.0)]);
      ClearsAppend(v + [ClearColor(0.0, 0.0, 0.0, 1.0)], tail);
      assert (v + [ClearColor(0.0, 0.0, 0.0, 1.0)] + tail)[|v|] == ClearColor(0.0, 0.0, 0.0, 1.0);
    }
  }

  /** When initVertexBuffers succeeds, every attribute pointer it sets reads, for
      every one of the VertexCount vertices, only floats inside the uploaded
      table; the two pointers go to the two looked-up locations. */
  lemma SetupPointersReadTable(p: Platform, i: nat)
    requires VertexSetupSucceeds(p) && i < VertexCount
    ensures BufferData(VerticesTexCoords) in VertexSetupCommands(p)
    ensures forall c :: c in VertexSetupCommands(p) && c.VertexAttribPointer? ==>
              Readable(VerticesTexCoords, AttribPointer(c.size, c.strideBytes, c.offsetBytes), i) &&
              (c.location == p.positionLocation || c.location == p.texCoordLocation)
    ensures EnableVertexAttribArray(p.positionLocation) in VertexSetupCommands(p)
    ensures EnableVertexAttribArray(p.texCoordLocation) in VertexSetupCommands(p)
  {
    AttributeLayout(i);
  }

  /** Is the image from the sky view (unit 0)? */
  predicate IsSky(o: Origin)
  {
    o == SkyPicker || o == SkyDrop
  }

  /** The loadTexture call an image-load callback makes: sky images go to unit
      0 with the first texture and u_Sampler0, circle images to unit 1 with the
      second texture and u_Sampler1, whether picked or dropped. */
  function HandlerLoad(l: Listeners, o: Origin, image: Image): (ld: Load)
    ensures ld.image == image
    ensures ld.texUnit == 0 <==> IsSky(o)
    ensures ld.texUnit == 0 ==> ld.texture == l.texture0 && ld.sampler == l.sampler0
    ensures ld.texUnit != 0 ==> ld.texUnit == 1 && ld.texture == l.texture1 && ld.sampler == l.sampler1
  {
    match o
    case SkyPicker | SkyDrop => Load(l.texture0, l.sampler0, image, 0)
    case CirclePicker | CircleDrop => Load(l.texture1, l.sampler1, image, 1)
  }

  /** The loadTexture calls a sequence of image deliveries makes. */
  function SessionLoads(l: Listeners, deliveries: seq<(Origin, Image)>): (loads: seq<Load>)
    ensures |loads| == |deliveries|
    ensures forall i :: 0 <= i < |deliveries| ==> loads[i] == HandlerLoad(l, deliveries[i].0, deliveries[i].1)
  {
    seq(|deliveries|, i requires 0 <= i < |deliveries| => HandlerLoad(l, deliveries[i].0, deliveries[i].1))
  }

  /** After a successful start, the images delivered in any order lead to draws
      exactly when both a sky image and a circle image have been delivered;
      every draw is the whole quad of 4 vertices as a triangle strip; and each
      delivery clears the canvas once. */
  lemma SessionDraws(p: Platform, deliveries: seq<(Origin, Image)>)
    requires StartOutcome(p).Listening?
    ensures var l := StartOutcome(p).listeners;
            var cs := Commands(l.n, NotReady, SessionLoads(l, deliveries));
            (Draws(cs) > 0 <==>
               (exists i :: 0 <= i < |deliveries| && IsSky(deliveries[i].0)) &&
               (exists j :: 0 <= j < |deliveries| && !IsSky(deliveries[j].0))) &&
            (forall i :: 0 <= i < |cs| && cs[i].DrawArrays? ==> cs[i] == DrawArrays(TriangleStrip, 0, 4)) &&
            Clears(cs) == |deliveries|
  {
    var l := StartOutcome(p).listeners;
    var loads := SessionLoads(l, deliveries);
    AfterSeen(NotReady, loads);
    DrawsAreQuad(l.n, NotReady, loads);
    OneClearPerCall(l.n, NotReady, loads);
    if After(NotReady, loads).Complete() {
      var k := |loads| - 1;
      assert loads[..k + 1] == loads;
      CallDrawsIff(l.n, NotReady, loads, k);
    } else {
      NoDrawWhileIncomplete(l.n, NotReady, loads);
    }
  }

  /** The callback an image-load event runs: loadTexture with the arguments
      its listener captured. */
  method OnImageLoaded(gate: TextureGate, gl: GlContext, l: Listeners, o: Origin, image: Image)
    modifies gate, gl
    ensures gate.State() == Mark(old(gate.State()), HandlerLoad(l, o, image).texUnit)
    ensures gl.commands == old(gl.commands) + LoadCommands(l.n, HandlerLoad(l, o, image), gate.State())
    ensures Draws(gl.commands) == Draws(old(gl.commands)) + (if gate.State().Complete() then 1 else 0)
  {
    DrawsAfterLoad(gl.commands, l.n, HandlerLoad(l, o, image), Mark(gate.State(), HandlerLoad(l, o, image).texUnit));
    match o
    case SkyPicker | SkyDrop =>
      gate.LoadTexture(gl, l.n, l.texture0, l.sampler0, image, 0);
    case CirclePicker | CircleDrop =>
      gate.LoadTexture(gl, l.n, l.texture1, l.sampler1, image, 1);
  }

  /** A start followed by three deliveries: a circle image by drop, then a sky
      image from the picker, then a replacement circle image from the picker.
      The draw counts after each delivery are 0, 1 and 2: nothing is drawn
      while only one unit is loaded, the completing delivery draws once, and a
      later replacement draws once more. */
  method ThreeDeliveries(p: Platform, circle: Image, sky: Image, circle2: Image) returns (draws: seq<nat>)
    requires StartOutcome(p).Listening?
    ensures draws == [0, 1, 2]
  {
    var gl := new GlContext();
    var gate := new TextureGate();
    var outcome := Start(gl, p);
    StartEffects(p);
    assert gl.commands == StartCommands(p);
    assert Draws(gl.commands) == 0;
    var l := outcome.listeners;
    OnImageLoaded(gate, gl, l, CircleDrop, circle);
    var d0 := Draws(gl.commands);
    assert d0 == 0;
    OnImageLoaded(gate, gl, l, SkyPicker, sky);
    var d1 := Draws(gl.commands);
    assert d1 == 1;
    OnImageLoaded(gate, gl, l, CirclePicker, circle2);
    var d2 := Draws(gl.commands);
    assert d2 == 2;
    draws := [d0, d1, d2];
  }

  /** The draw count of a command stream after one more loadTexture call. */
  lemma DrawsAfterLoad(before: seq<Command>, n: int, ld: Load, after: Readiness)
    ensures Draws(before + LoadCommands(n, ld, after)) == Draws(before) + (if after.Complete() then 1 else 0)
  {
    DrawsAppend(before, LoadCommands(n, ld, after));
  }
}
