/** Read-modify-write arithmetic on 32-bit peripheral registers.

    Every register update in the DSI host programmers is a pair of volatile
    read-modify-write steps, `reg &= !MASK` followed by `reg |= value`. Any chain
    of such steps on one register has the closed form `(reg & keep) | ors`,
    which is what `Rmw` records. */
module RegisterBits {

  /** The update `reg := (reg & keep) | ors`. */
  datatype Rmw = Rmw(keep: bv32, ors: bv32)
  {
    function Apply(x: bv32): bv32
    {
      (x & keep) | ors
    }
  }

  /** Doing nothing to a register. */
  const Identity: Rmw := Rmw(0xFFFF_FFFF, 0)

  /** The step pair `reg &= !mask; reg |= value` that programs one register field. */
  function Field(mask: bv32, value: bv32): Rmw
  {
    Rmw(!mask, value)
  }

  /** A lone `reg &= !mask` step. */
  function Clear(mask: bv32): Rmw
  {
    Rmw(!mask, 0)
  }

  /** `a` followed by `b`, as one update. */
  function Then(a: Rmw, b: Rmw): Rmw
  {
    Rmw(a.keep & b.keep, (a.ors & b.keep) | b.ors)
  }

  /** `Then` composes: running the combined update is running `a`, then `b`. */
  lemma ThenApply(a: Rmw, b: Rmw, x: bv32)
    ensures Then(a, b).Apply(x) == b.Apply(a.Apply(x))
  {
  }

  /** The value `value` "fits" a field when it has no bit outside `mask`. */
  predicate Fits(value: bv32, mask: bv32)
  {
    value & !mask == 0
  }

  /** Every update of the closed form is idempotent: a register programmed twice with the
      same steps ends where it ended after the first time. */
  lemma Idempotent(u: Rmw, x: bv32)
    ensures u.Apply(u.Apply(x)) == u.Apply(x)
  {
  }

  /** A value that fits its field reads back from the field, and the bits outside the field
      keep their old value. */
  lemma FieldReadBack(mask: bv32, value: bv32, x: bv32)
    requires Fits(value, mask)
    ensures Field(mask, value).Apply(x) & mask == value
    ensures Field(mask, value).Apply(x) & !mask == x & !mask
  {
  }

  /** The value is OR-ed exactly as supplied: bits of it that lie outside the field are set
      in the register too, and nothing else outside the field changes. */
  lemma FieldOrsValueAsSupplied(mask: bv32, value: bv32, x: bv32)
    ensures Field(mask, value).Apply(x) & !mask == (x & !mask) | (value & !mask)
    ensures Field(mask, value).Apply(x) & mask == value & mask
  {
  }

  /** In an ordered chain of field writes, a bit OR-ed by an earlier write survives unless it
      lies inside a later write's mask, and inside that mask the later value wins. */
  lemma LaterFieldWins(m1: bv32, v1: bv32, m2: bv32, v2: bv32, x: bv32)
    ensures Then(Field(m1, v1), Field(m2, v2)).Apply(x) & (v1 & !m2) == v1 & !m2
    ensures Then(Field(m1, v1), Field(m2, v2)).Apply(x) & m2 == v2 & m2
  {
  }

  /** One clear-then-set step pair of a chain, as written in the source: the mask to clear
      and the value to OR in. */
  datatype FieldWrite = FieldWrite(mask: bv32, value: bv32)

  /** The register after the step pairs `ws`, run in order from the value `x`. */
  function Run(ws: seq<FieldWrite>, x: bv32): bv32
    decreases |ws|
  {
    if ws == [] then x else Run(ws[1..], Field(ws[0].mask, ws[0].value).Apply(x))
  }

  /** Running a chain that starts with `w` is running `w`, then the rest. */
  lemma RunCons(w: FieldWrite, ws: seq<FieldWrite>, x: bv32)
    ensures Run([w] + ws, x) == Run(ws, Field(w.mask, w.value).Apply(x))
  {
    assert ([w] + ws)[1..] == ws;
  }

  /** One step of a run from position `i`. */
  lemma RunFrom(ws: seq<FieldWrite>, i: nat, x: bv32)
    requires i < |ws|
    ensures Run(ws[i..], x) == Run(ws[i + 1..], Field(ws[i].mask, ws[i].value).Apply(x))
  {
    assert ws[i..][1..] == ws[i + 1..];
  }

  /** The single closed-form update that a chain of step pairs amounts to. */
  function Compose(ws: seq<FieldWrite>): Rmw
    decreases |ws|
  {
    if ws == [] then Identity else Then(Field(ws[0].mask, ws[0].value), Compose(ws[1..]))
  }

  /** Every bit that some step of `ws` clears. */
  function Masks(ws: seq<FieldWrite>): bv32
    decreases |ws|
  {
    if ws == [] then 0 else ws[0].mask | Masks(ws[1..])
  }

  /** A chain of step pairs is one closed-form update. */
  lemma {:induction false} RunIsCompose(ws: seq<FieldWrite>, x: bv32)
    ensures Run(ws, x) == Compose(ws).Apply(x)
    decreases |ws|
  {
    if ws != [] {
      var first := Field(ws[0].mask, ws[0].value);
      RunIsCompose(ws[1..], first.Apply(x));
      ThenApply(first, Compose(ws[1..]), x);
    }
  }

  /** Running a chain twice leaves the register where running it once did. */
  lemma RunIdempotent(ws: seq<FieldWrite>, x: bv32)
    ensures Run(ws, Run(ws, x)) == Run(ws, x)
  {
    RunIsCompose(ws, x);
    RunIsCompose(ws, Run(ws, x));
    Idempotent(Compose(ws), x);
  }

  /** Inside the mask of the last step, the register holds that step's value. */
  lemma {:induction false} LastWriteWins(ws: seq<FieldWrite>, x: bv32)
    requires ws != []
    ensures Run(ws, x) & ws[|ws| - 1].mask == ws[|ws| - 1].value & ws[|ws| - 1].mask
    decreases |ws|
  {
    if |ws| > 1 {
      LastWriteWins(ws[1..], Field(ws[0].mask, ws[0].value).Apply(x));
    }
  }

  /** Bits that no step clears keep their old value, apart from stray value bits that some
      step ORs in outside its own mask. */
  lemma {:induction false} UntouchedBits(ws: seq<FieldWrite>, x: bv32)
    ensures Run(ws, x) & !Masks(ws) & !Values(ws) == x & !Masks(ws) & !Values(ws)
    decreases |ws|
  {
    if ws != [] {
      UntouchedBits(ws[1..], Field(ws[0].mask, ws[0].value).Apply(x));
    }
  }

  /** Every bit that some step of `ws` ORs in. */
  function Values(ws: seq<FieldWrite>): bv32
    decreases |ws|
  {
    if ws == [] then 0 else ws[0].value | Values(ws[1..])
  }
}
