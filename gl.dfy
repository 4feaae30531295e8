/** The slice of the WebGL rendering context that the demo drives.
    Every state-changing call the demo makes on `gl` is recorded, in order, as a
    `Command`; what the driver then does with it is not modelled. Queries whose
    answer comes from the browser (context creation, buffer and texture
    allocation, attribute and uniform lookups) are answered by the caller; see
    module Startup. */
module Gl {

  datatype Option<T> = None | Some(value: T)

  /** Opaque handles the browser hands out; only their identity matters. */
  datatype Texture = Texture(id: nat)
  datatype Sampler = Sampler(id: nat)
  datatype Buffer = Buffer(id: nat)
  datatype Image = Image(id: nat)

  /** gl.TEXTURE0 and gl.TEXTURE1. */
  datatype TextureUnit = Texture0 | Texture1

  /** The only primitive the demo draws with. */
  datatype DrawMode = TriangleStrip

  datatype Command =
    | PixelStoreFlipY(flip: int)                      // pixelStorei(UNPACK_FLIP_Y_WEBGL, flip)
    | ActiveTexture(unit: TextureUnit)
    | BindTexture(texture: Texture)                   // target TEXTURE_2D
    | TexParameterMinFilterLinear                     // texParameteri(TEXTURE_2D, TEXTURE_MIN_FILTER, LINEAR)
    | TexImage2D(image: Image)                        // level 0, RGBA, RGBA, UNSIGNED_BYTE
    | Uniform1i(sampler: Sampler, value: int)
    | Clear                                           // clear(COLOR_BUFFER_BIT)
    | DrawArrays(mode: DrawMode, first: int, count: int)
    | ClearColor(r: real, g: real, b: real, a: real)
    | BindArrayBuffer(buffer: Buffer)                 // bindBuffer(ARRAY_BUFFER, buffer)
    | BufferData(data: seq<real>)                     // bufferData(ARRAY_BUFFER, data, STATIC_DRAW)
    | VertexAttribPointer(location: int, size: nat, strideBytes: nat, offsetBytes: nat)  // FLOAT, not normalised
    | EnableVertexAttribArray(location: int)

  /** Number of draw calls, of any mode and range, in a command stream. */
  function Draws(cs: seq<Command>): nat
    decreases |cs|
  {
    if cs == [] then 0
    else Draws(cs[..|cs| - 1]) + (if cs[|cs| - 1].DrawArrays? then 1 else 0)
  }

  /** Number of clears of the colour buffer in a command stream. */
  function Clears(cs: seq<Command>): nat
    decreases |cs|
  {
    if cs == [] then 0
    else Clears(cs[..|cs| - 1]) + (if cs[|cs| - 1].Clear? then 1 else 0)
  }

  lemma {:induction false} DrawsAppend(a: seq<Command>, b: seq<Command>)
    ensures Draws(a + b) == Draws(a) + Draws(b)
    decreases |b|
  {
    if b != [] {
      var b' := b[..|b| - 1];
      assert (a + b)[..|a + b| - 1] == a + b';
      DrawsAppend(a, b');
    } else {
      assert a + b == a;
    }
  }

  lemma {:induction false} ClearsAppend(a: seq<Command>, b: seq<Command>)
    ensures Clears(a + b) == Clears(a) + Clears(b)
    decreases |b|
  {
    if b != [] {
      var b' := b[..|b| - 1];
      assert (a + b)[..|a + b| - 1] == a + b';
      ClearsAppend(a, b');
    } else {
      assert a + b == a;
    }
  }

  /** A stream without any draw command has a draw count of zero, and conversely. */
  lemma {:induction false} DrawsZero(cs: seq<Command>)
    ensures Draws(cs) == 0 <==> forall i :: 0 <= i < |cs| ==> !cs[i].DrawArrays?
    decreases |cs|
  {
    if cs != [] {
      var front := cs[..|cs| - 1];
      DrawsZero(front);
      assert forall i :: 0 <= i < |front| ==> front[i] == cs[i];
    }
  }

  /** A stream without any clear command has a clear count of zero, and conversely. */
  lemma {:induction false} ClearsZero(cs: seq<Command>)
    ensures Clears(cs) == 0 <==> forall i :: 0 <= i < |cs| ==> !cs[i].Clear?
    decreases |cs|
  {
    if cs != [] {
      var front := cs[..|cs| - 1];
      ClearsZero(front);
      assert forall i :: 0 <= i < |front| ==> front[i] == cs[i];
    }
  }

  /** The rendering context: the command stream recorded so far. Each method is
      one WebGL call and appends exactly its own command. */
  class GlContext {
    var commands: seq<Command>

    constructor ()
      ensures commands == []
    {
      commands := [];
    }

    method PixelStorei(flip: int)
      modifies this
      ensures commands == old(commands) + [PixelStoreFlipY(flip)]
    {
      commands := commands + [PixelStoreFlipY(flip)];
    }

    method ActivateTexture(unit: TextureUnit)
      modifies this
      ensures commands == old(commands) + [ActiveTexture(unit)]
    {
      commands := commands + [ActiveTexture(unit)];
    }

    method BindTexture2D(texture: Texture)
      modifies this
      ensures commands == old(commands) + [BindTexture(texture)]
    {
      commands := commands + [BindTexture(texture)];
    }

    method SetMinFilterLinear()
      modifies this
      ensures commands == old(commands) + [TexParameterMinFilterLinear]
    {
      commands := commands + [TexParameterMinFilterLinear];
    }

    method UploadImage(image: Image)
      modifies this
      ensures commands == old(commands) + [TexImage2D(image)]
    {
      commands := commands + [TexImage2D(image)];
    }

    method SetUniform1i(sampler: Sampler, value: int)
      modifies this
      ensures commands == old(commands) + [Uniform1i(sampler, value)]
    {
      commands := commands + [Uniform1i(sampler, value)];
    }

    method ClearColorBuffer()
      modifies this
      ensures commands == old(commands) + [Clear]
    {
      commands := commands + [Clear];
    }

    method Draw(mode: DrawMode, first: int, count: int)
      modifies this
      ensures commands == old(commands) + [DrawArrays(mode, first, count)]
    {
      commands := commands + [DrawArrays(mode, first, count)];
    }

    method SetClearColor(r: real, g: real, b: real, a: real)
      modifies this
      ensures commands == old(commands) + [ClearColor(r, g, b, a)]
    {
      commands := commands + [ClearColor(r, g, b, a)];
    }

    method BindBuffer(buffer: Buffer)
      modifies this
      ensures commands == old(commands) + [BindArrayBuffer(buffer)]
    {
      commands := commands + [BindArrayBuffer(buffer)];
    }

    method UploadBufferData(data: seq<real>)
      modifies this
      ensures commands == old(commands) + [BufferData(data)]
    {
      commands := commands + [BufferData(data)];
    }

    method SetVertexAttribPointer(location: int, size: nat, strideBytes: nat, offsetBytes: nat)
      modifies this
      ensures commands == old(commands) + [VertexAttribPointer(location, size, strideBytes, offsetBytes)]
    {
      commands := commands + [VertexAttribPointer(location, size, strideBytes, offsetBytes)];
    }

    method EnableAttribArray(location: int)
      modifies this
      ensures commands == old(commands) + [EnableVertexAttribArray(location)]
    {
      commands := commands + [EnableVertexAttribArray(location)];
    }
  }
}
