/** The texture-readiness draw gate (MultiTexture.js, lines 206-234): two
    readiness flags, one per texture unit, and loadTexture, which every image
    delivery calls. Deliveries arrive in any order but all run on the one event
    thread, so a session is a sequence of loadTexture calls; `After` and
    `Commands` give its effect, and the lemmas below state what holds for every
    such sequence. */
module DrawGate {
  import opened Gl

  /** The two flags g_texUnit0 and g_texUnit1. */
  datatype Readiness = Readiness(unit0: bool, unit1: bool) {
    /** Both units hold a texture: the only state in which loadTexture draws. */
    predicate Complete() { unit0 && unit1 }
  }

  /** Both flags start false. */
  const NotReady := Readiness(false, false)

  /** The arguments of one loadTexture call that matter to the gate (the count
      `n` is fixed for a session and passed separately). */
  datatype Load = Load(texture: Texture, sampler: Sampler, image: Image, texUnit: int)

  /** The unit loadTexture activates: TEXTURE0 when texUnit is 0, TEXTURE1 for
      every other value. */
  function UnitFor(texUnit: int): (u: TextureUnit)
    ensures u == Texture0 <==> texUnit == 0
  {
    if texUnit == 0 then Texture0 else Texture1
  }

  /** The flag update of one loadTexture call: the flag of the unit it selects
      becomes true, the other keeps its value, and no flag ever becomes false. */
  function Mark(r: Readiness, texUnit: int): (r': Readiness)
    ensures r'.unit0 == (r.unit0 || texUnit == 0)
    ensures r'.unit1 == (r.unit1 || texUnit != 0)
  {
    if texUnit == 0 then r.(unit0 := true) else r.(unit1 := true)
  }

  /** The commands one loadTexture call issues, given `after`, the flags as its
      own update left them. */
  function LoadCommands(n: int, ld: Load, after: Readiness): (cs: seq<Command>)
    ensures |cs| == if after.Complete() then 8 else 7
    // the upload comes first: flip on unpack, select the unit, bind, filter, image, sampler value
    ensures cs[..6] == [PixelStoreFlipY(1), ActiveTexture(UnitFor(ld.texUnit)), BindTexture(ld.texture),
                        TexParameterMinFilterLinear, TexImage2D(ld.image), Uniform1i(ld.sampler, ld.texUnit)]
    // then exactly one clear, and a draw only after it, only of the whole strip
    ensures cs[6] == Clear && Clears(cs) == 1
    ensures Draws(cs) == (if after.Complete() then 1 else 0)
    ensures forall i :: 0 <= i < |cs| && cs[i].DrawArrays? ==> i == 7 && cs[i] == DrawArrays(TriangleStrip, 0, n)
  {
    var upload := [PixelStoreFlipY(1), ActiveTexture(UnitFor(ld.texUnit)), BindTexture(ld.texture),
                   TexParameterMinFilterLinear, TexImage2D(ld.image), Uniform1i(ld.sampler, ld.texUnit)];
    var draw := if after.Complete() then [DrawArrays(TriangleStrip, 0, n)] else [];
    DrawsZero(upload + [Clear]);
    ClearsZero(upload);
    ClearsZero(draw);
    DrawsAppend(upload + [Clear], draw);
    ClearsAppend(upload, [Clear]);
    ClearsAppend(upload + [Clear], draw);
    upload + [Clear] + draw
  }

  /** The flags after the calls `loads`, starting from `r`. */
  function After(r: Readiness, loads: seq<Load>): Readiness
    decreases |loads|
  {
    if loads == [] then r
    else Mark(After(r, loads[..|loads| - 1]), loads[|loads| - 1].texUnit)
  }

  /** Every command the calls `loads` issue, starting from flags `r`, in order:
      each call's commands follow those of the calls before it. */
  function Commands(n: int, r: Readiness, loads: seq<Load>): seq<Command>
    decreases |loads|
  {
    if loads == [] then []
    else Commands(n, r, loads[..|loads| - 1]) + LoadCommands(n, loads[|loads| - 1], After(r, loads))
  }

  /** One more call extends the flags and the command stream by that call's step
      alone: what TextureGate.LoadTexture guarantees. */
  lemma StepExtends(n: int, r: Readiness, loads: seq<Load>, ld: Load)
    ensures After(r, loads + [ld]) == Mark(After(r, loads), ld.texUnit)
    ensures Commands(n, r, loads + [ld]) == Commands(n, r, loads) + LoadCommands(n, ld, After(r, loads + [ld]))
  {
    assert (loads + [ld])[..|loads|] == loads;
  }

  /** Readiness is monotonic over any call sequence: a flag that is set stays set. */
  lemma {:induction false} Monotonic(r: Readiness, loads: seq<Load>)
    ensures r.unit0 ==> After(r, loads).unit0
    ensures r.unit1 ==> After(r, loads).unit1
    ensures r.Complete() ==> After(r, loads).Complete()
    decreases |loads|
  {
    if loads != [] {
      Monotonic(r, loads[..|loads| - 1]);
    }
  }

  /** After any call sequence a flag is set exactly when it was set at the start
      or some call selected its unit (texUnit 0 for unit 0, any other value for
      unit 1): the flags depend on which units were loaded, not on the order. */
  lemma {:induction false} AfterSeen(r: Readiness, loads: seq<Load>)
    ensures After(r, loads).unit0 <==> r.unit0 || exists i :: 0 <= i < |loads| && loads[i].texUnit == 0
    ensures After(r, loads).unit1 <==> r.unit1 || exists i :: 0 <= i < |loads| && loads[i].texUnit != 0
    decreases |loads|
  {
    if loads != [] {
      var front := loads[..|loads| - 1];
      AfterSeen(r, front);
      assert forall i :: 0 <= i < |front| ==> front[i] == loads[i];
      if After(r, loads).unit0 && !r.unit0 {
        if !After(r, front).unit0 {
          assert loads[|loads| - 1].texUnit == 0;
        }
      }
      if After(r, loads).unit1 && !r.unit1 {
        if !After(r, front).unit1 {
          assert loads[|loads| - 1].texUnit != 0;
        }
      }
    }
  }

  /** Order independence of readiness: two sessions with the same deliveries in
      any order leave the same flags. */
  lemma OrderIndependent(r: Readiness, a: seq<Load>, b: seq<Load>)
    requires multiset(a) == multiset(b)
    ensures After(r, a) == After(r, b)
  {
    AfterSeen(r, a);
    AfterSeen(r, b);
    forall i | 0 <= i < |a|
      ensures exists j :: 0 <= j < |b| && b[j] == a[i]
    {
      assert a[i] in multiset(b);
      assert a[i] in b;
    }
    forall j | 0 <= j < |b|
      ensures exists i :: 0 <= i < |a| && a[i] == b[j]
    {
      assert b[j] in multiset(a);
      assert b[j] in a;
    }
  }

  /** Every call clears the canvas exactly once. */
  lemma {:induction false} OneClearPerCall(n: int, r: Readiness, loads: seq<Load>)
    ensures Clears(Commands(n, r, loads)) == |loads|
    decreases |loads|
  {
    if loads != [] {
      var front := loads[..|loads| - 1];
      OneClearPerCall(n, r, front);
      ClearsAppend(Commands(n, r, front), LoadCommands(n, loads[|loads| - 1], After(r, loads)));
    }
  }

  /** Every draw any call sequence issues is the whole quad: a triangle strip
      from vertex 0 with the session's count n. */
  lemma {:induction false} DrawsAreQuad(n: int, r: Readiness, loads: seq<Load>)
    ensures forall i :: 0 <= i < |Commands(n, r, loads)| && Commands(n, r, loads)[i].DrawArrays? ==>
              Commands(n, r, loads)[i] == DrawArrays(TriangleStrip, 0, n)
    decreases |loads|
  {
    if loads != [] {
      var front := loads[..|loads| - 1];
      DrawsAreQuad(n, r, front);
      var a: seq<Command> := Commands(n, r, front);
      var b: seq<Command> := LoadCommands(n, loads[|loads| - 1], After(r, loads));
      var cs: seq<Command> := a + b;
      assert Commands(n, r, loads) == cs;
      forall i | 0 <= i < |cs| && cs[i].DrawArrays?
        ensures cs[i] == DrawArrays(TriangleStrip, 0, n)
      {
        if i >= |a| { assert cs[i] == b[i - |a|]; } else { assert cs[i] == a[i]; }
      }
    }
  }

  /** Call number k (counting from 0) draws exactly when both flags are true
      after its own update. */
  lemma CallDrawsIff(n: int, r: Readiness, loads: seq<Load>, k: nat)
    requires k < |loads|
    ensures Draws(Commands(n, r, loads[..k + 1]))
            == Draws(Commands(n, r, loads[..k])) + (if After(r, loads[..k + 1]).Complete() then 1 else 0)
  {
    var p := loads[..k + 1];
    assert p[..|p| - 1] == loads[..k];
    assert p[|p| - 1] == loads[k];
    DrawsAppend(Commands(n, r, loads[..k]), LoadCommands(n, loads[k], After(r, p)));
  }

  /** No draw is ever issued while either unit is unloaded: a session whose
      flags are not both true at its end has issued no draw at all. */
  lemma {:induction false} NoDrawWhileIncomplete(n: int, r: Readiness, loads: seq<Load>)
    requires !After(r, loads).Complete()
    ensures Draws(Commands(n, r, loads)) == 0
    decreases |loads|
  {
    if loads != [] {
      var front := loads[..|loads| - 1];
      Monotonic(r, [] + front);
      MonotonicPrefix(r, loads, |loads| - 1);
      NoDrawWhileIncomplete(n, r, front);
      DrawsAppend(Commands(n, r, front), LoadCommands(n, loads[|loads| - 1], After(r, loads)));
    }
  }

  /** Completion of a prefix carries over to the whole sequence. */
  lemma MonotonicPrefix(r: Readiness, loads: seq<Load>, k: nat)
    requires k <= |loads|
    ensures After(r, loads[..k]).Complete() ==> After(r, loads).Complete()
  {
    AfterSeen(r, loads[..k]);
    AfterSeen(r, loads);
    assert forall i :: 0 <= i < k ==> loads[..k][i] == loads[i];
  }

  /** Once both flags are true, every further call draws exactly once more. */
  lemma {:induction false} RedrawEveryCall(n: int, r: Readiness, loads: seq<Load>, more: seq<Load>)
    requires After(r, loads).Complete()
    ensures Draws(Commands(n, r, loads + more)) == Draws(Commands(n, r, loads)) + |more|
    decreases |more|
  {
    if more != [] {
      var front := more[..|more| - 1];
      var ld := more[|more| - 1];
      assert loads + more == (loads + front) + [ld];
      RedrawEveryCall(n, r, loads, front);
      Monotonic(After(r, loads), front);
      AfterConcat(r, loads, front);
      StepExtends(n, r, loads + front, ld);
      DrawsAppend(Commands(n, r, loads + front), LoadCommands(n, ld, After(r, loads + more)));
    } else {
      assert loads + more == loads;
    }
  }

  /** Running two call sequences one after the other. */
  lemma {:induction false} AfterConcat(r: Readiness, a: seq<Load>, b: seq<Load>)
    ensures After(r, a + b) == After(After(r, a), b)
    decreases |b|
  {
    if b == [] {
      assert a + b == a;
    } else {
      assert (a + b)[..|a + b| - 1] == a + b[..|b| - 1];
      AfterConcat(r, a, b[..|b| - 1]);
    }
  }

  /** The first draw happens on the call that completes the pair of units, in
      whichever order they arrived, and every call from then on draws once:
      if call k is the first after which both flags are true, the calls before
      it drew nothing, call k drew once, and the session drew |loads| - k times. */
  lemma FirstDrawAtCompletion(n: int, r: Readiness, loads: seq<Load>, k: nat)
    requires k < |loads|
    requires !After(r, loads[..k]).Complete() && After(r, loads[..k + 1]).Complete()
    ensures Draws(Commands(n, r, loads[..k])) == 0
    ensures Draws(Commands(n, r, loads[..k + 1])) == 1
    ensures Draws(Commands(n, r, loads)) == |loads| - k
  {
    NoDrawWhileIncomplete(n, r, loads[..k]);
    CallDrawsIff(n, r, loads, k);
    assert loads[..k + 1] + loads[k + 1..] == loads;
    RedrawEveryCall(n, r, loads[..k + 1], loads[k + 1..]);
  }

  /** The two-delivery sessions: unit 0 then unit 1, or unit 1 then unit 0,
      draw nothing on the first call and exactly once on the second. */
  lemma EitherOrder(n: int, l0: Load, l1: Load)
    requires l0.texUnit == 0 && l1.texUnit != 0
    ensures Draws(Commands(n, NotReady, [l0])) == 0 && Draws(Commands(n, NotReady, [l0, l1])) == 1
    ensures Draws(Commands(n, NotReady, [l1])) == 0 && Draws(Commands(n, NotReady, [l1, l0])) == 1
  {
    assert [l0, l1][..1] == [l0] && [l1, l0][..1] == [l1];
    assert [l0, l1][..2] == [l0, l1] && [l1, l0][..2] == [l1, l0];
    assert [l0][..0] == [] && [l1][..0] == [];
    FirstDrawAtCompletion(n, NotReady, [l0, l1], 1);
    FirstDrawAtCompletion(n, NotReady, [l1, l0], 1);
  }

  /** The flags g_texUnit0 and g_texUnit1, which are module-level globals in
      the source and fields of one gate object here. */
  class TextureGate {
    var texUnit0: bool
    var texUnit1: bool

    function State(): Readiness
      reads this
    {
      Readiness(texUnit0, texUnit1)
    }

    constructor ()
      ensures State() == NotReady
    {
      texUnit0, texUnit1 := false, false;
    }

    /** loadTexture(gl, n, texture, u_Sampler, image, texUnit). */
    method LoadTexture(gl: GlContext, n: int, texture: Texture, sampler: Sampler, image: Image, texUnit: int)
      modifies this, gl
      ensures State() == Mark(old(State()), texUnit)
      ensures gl.commands == old(gl.commands) + LoadCommands(n, Load(texture, sampler, image, texUnit), State())
    {
      gl.PixelStorei(1);
      if texUnit == 0 {
        gl.ActivateTexture(Texture0);
        texUnit0 := true;
      } else {
        gl.ActivateTexture(Texture1);
        texUnit1 := true;
      }
      gl.BindTexture2D(texture);
      gl.SetMinFilterLinear();
      gl.UploadImage(image);
      gl.SetUniform1i(sampler, texUnit);
      gl.ClearColorBuffer();
      if texUnit0 && texUnit1 {
        gl.Draw(TriangleStrip, 0, n);
      }
    }
  }
}
