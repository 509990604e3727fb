/** Game-modifier flags (osu/enums.py, class `Mods`): thirty single-bit
    modifiers packed into one Python integer, read and written one bit at a
    time.  The integer is an unbounded `int` and the bit operators are those
    of module `Bits`; a modifier is identified with its bit position. */
module Enums {
  import opened Wrappers
  import opened Bits

  /** A modifier: the position of its bit (`MASK_xx = 1 << k`). */
  type Mod = k: nat | k < 30

  const NF: Mod := 0
  const EZ: Mod := 1
  const TD: Mod := 2
  const HD: Mod := 3
  const HR: Mod := 4
  const SD: Mod := 5
  const DT: Mod := 6
  const RL: Mod := 7
  const HT: Mod := 8
  const NC: Mod := 9
  const FL: Mod := 10
  const Auto: Mod := 11
  const SO: Mod := 12
  const AP: Mod := 13
  const PF: Mod := 14
  const K4: Mod := 15
  const K5: Mod := 16
  const K6: Mod := 17
  const K7: Mod := 18
  const K8: Mod := 19
  const FI: Mod := 20
  const RD: Mod := 21
  const Cinema: Mod := 22
  const TP: Mod := 23
  const K9: Mod := 24
  const Coop: Mod := 25
  const K1: Mod := 26
  const K3: Mod := 27
  const K2: Mod := 28
  const V2: Mod := 29

  /** `MASK_xx` */
  function Mask(m: Mod): nat
  {
    Pow2(m)
  }

  /** The single masks are the distinct bits 1 << 0 to 1 << 29. */
  lemma MaskBits(m: Mod, k: nat)
    ensures Bit(Mask(m), k) <==> k == m
  {
    BitPow2(m, k);
  }

  lemma MasksDisjoint(a: Mod, b: Mod)
    requires a != b
    ensures And(Mask(a), Mask(b)) == 0
  {
    AndPow2(Mask(a), b);
    MaskBits(a, b);
  }

  /** The getter of a modifier: `(mods & MASK_xx) != 0`. */
  predicate Holds(x: int, m: Mod) { IAnd(x, Mask(m)) != 0 }

  lemma HoldsBit(x: int, m: Mod)
    ensures Holds(x, m) <==> IBit(x, m)
  {
    IAndPow2(x, m);
  }

  // ------------------------------------------------------------ composite masks

  /** The union of the masks of ms. */
  function MaskOf(ms: seq<Mod>): nat
  {
    if |ms| == 0 then 0 else Or(Mask(ms[0]), MaskOf(ms[1..]))
  }

  /** A union of masks has exactly the bits of the modifiers it is built from. */
  lemma {:induction false} MaskOfBits(ms: seq<Mod>, k: nat)
    ensures Bit(MaskOf(ms), k) <==> k < 30 && k as Mod in ms
  {
    if |ms| == 0 {
      ZeroHasNoBit(k);
    } else {
      MaskOfBits(ms[1..], k);
      BitOr(Mask(ms[0]), MaskOf(ms[1..]), k);
      MaskBits(ms[0], k);
      assert ms == [ms[0]] + ms[1..];
    }
  }

  /** `x & y != 0` exactly when x and y share a one digit. */
  lemma Meets(x: int, y: nat)
    ensures IAnd(x, y) != 0 <==> exists k: nat :: IBit(x, k) && Bit(y, k)
  {
    if IAnd(x, y) != 0 {
      SomeBit(IAnd(x, y));
      var k: nat :| Bit(IAnd(x, y), k);
      IBitAnd(x, y, k);
    } else {
      forall k: nat ensures !(IBit(x, k) && Bit(y, k)) {
        IBitAnd(x, y, k);
        ZeroHasNoBit(k);
      }
    }
  }

  /** A value meets a union of masks exactly when it holds one of them. */
  lemma MaskOfMeets(x: int, ms: seq<Mod>)
    ensures IAnd(x, MaskOf(ms)) != 0 <==> exists m: Mod :: m in ms && Holds(x, m)
  {
    Meets(x, MaskOf(ms));
    if IAnd(x, MaskOf(ms)) != 0 {
      var k: nat :| IBit(x, k) && Bit(MaskOf(ms), k);
      MaskOfBits(ms, k);
      HoldsBit(x, k as Mod);
    } else {
      forall m: Mod | m in ms ensures !Holds(x, m) {
        HoldsBit(x, m);
        MaskOfBits(ms, m);
      }
    }
  }

  /** Two unions of masks are equal when they are built from the same modifiers. */
  lemma SameMembers(ms: seq<Mod>, ns: seq<Mod>, a: nat)
    requires forall m :: m in ms <==> m in ns
    ensures MaskOf(ms) == MaskOf(ns)
  {
    forall k: nat ensures Bit(MaskOf(ms), k) == Bit(MaskOf(ns), k) {
      MaskOfBits(ms, k);
      MaskOfBits(ns, k);
    }
    BitsDetermine(MaskOf(ms), MaskOf(ns));
  }

  lemma {:induction false} MaskOfConcat(a: seq<Mod>, b: seq<Mod>)
    ensures MaskOf(a + b) == Or(MaskOf(a), MaskOf(b))
  {
    forall k: nat ensures Bit(MaskOf(a + b), k) == Bit(Or(MaskOf(a), MaskOf(b)), k) {
      MaskOfBits(a + b, k);
      MaskOfBits(a, k);
      MaskOfBits(b, k);
      BitOr(MaskOf(a), MaskOf(b), k);
    }
    BitsDetermine(MaskOf(a + b), Or(MaskOf(a), MaskOf(b)));
  }

  const MASK_NM: nat := 0
  const KEYMODS: seq<Mod> := [K1, K2, K3, K4, K5, K6, K7, K8, K9, Coop]
  const AUTOUNRANKED: seq<Mod> := [RL, Auto, AP, Cinema]
  const MANIAUNRANKED: seq<Mod> := [RD, Coop, K1, K3, K2]
  const UNRANKED: seq<Mod> := AUTOUNRANKED + MANIAUNRANKED + [TP, V2]
  const SCOREINCREASE: seq<Mod> := [HD, HR, DT, FL, FI]

  function MASK_KEYMODS(): nat { MaskOf(KEYMODS) }
  function MASK_AUTOUNRANKED(): nat { MaskOf(AUTOUNRANKED) }
  function MASK_MANIAUNRANKED(): nat { MaskOf(MANIAUNRANKED) }
  function MASK_UNRANKED(): nat { MaskOf(UNRANKED) }
  function MASK_SCOREINCREASE(): nat { MaskOf(SCOREINCREASE) }

  /** The unranked mask is the union the class writes out,
      `MASK_AUTOUNRANKED | MASK_MANIAUNRANKED | MASK_TP | MASK_V2`. */
  lemma UnrankedUnion()
    ensures MASK_UNRANKED() == Or(Or(Or(MASK_AUTOUNRANKED(), MASK_MANIAUNRANKED()), Mask(TP)), Mask(V2))
  {
    var a, b := MASK_AUTOUNRANKED(), MASK_MANIAUNRANKED();
    forall k: nat ensures Bit(MASK_UNRANKED(), k) == (Bit(a, k) || Bit(b, k) || Bit(Mask(TP), k) || Bit(Mask(V2), k)) {
      MaskOfBits(UNRANKED, k);
      MaskOfBits(AUTOUNRANKED, k);
      MaskOfBits(MANIAUNRANKED, k);
      MaskBits(TP, k);
      MaskBits(V2, k);
    }
    FourUnion(a, b, Mask(TP), Mask(V2), MASK_UNRANKED());
  }

  /** A number with exactly the digits of four others is their union. */
  lemma FourUnion(a: nat, b: nat, c: nat, d: nat, u: nat)
    requires forall k: nat :: Bit(u, k) == (Bit(a, k) || Bit(b, k) || Bit(c, k) || Bit(d, k))
    ensures u == Or(Or(Or(a, b), c), d)
  {
    forall k: nat ensures Bit(u, k) == Bit(Or(Or(Or(a, b), c), d), k) {
      BitOr(Or(Or(a, b), c), d, k);
      BitOr(Or(a, b), c, k);
      BitOr(a, b, k);
    }
    BitsDetermine(u, Or(Or(Or(a, b), c), d));
  }

  /** Each composite mask holds exactly the modifiers it lists. */
  lemma CompositeMasks(m: Mod)
    ensures Holds(MASK_KEYMODS(), m) <==> m in KEYMODS
    ensures Holds(MASK_UNRANKED(), m) <==> m in UNRANKED
    ensures Holds(MASK_SCOREINCREASE(), m) <==> m in SCOREINCREASE
  {
    HoldsBit(MASK_KEYMODS(), m);
    MaskOfBits(KEYMODS, m);
    HoldsBit(MASK_UNRANKED(), m);
    MaskOfBits(UNRANKED, m);
    HoldsBit(MASK_SCOREINCREASE(), m);
    MaskOfBits(SCOREINCREASE, m);
  }

  // ------------------------------------------------------------ no modifier

  /** Below 1 << 30, the value is 0 exactly when no modifier is on. */
  lemma NoModIsZero(x: nat)
    requires x < Pow2(30)
    ensures x == 0 <==> forall m: Mod :: !Holds(x, m)
  {
    if x != 0 {
      SomeBit(x);
      var k: nat :| Bit(x, k);
      if k >= 30 {
        HighBitClear(x, 30, k);
      }
      HoldsBit(x, k);
    } else {
      forall m: Mod ensures !Holds(x, m) {
        HoldsBit(x, m);
        ZeroHasNoBit(m);
      }
    }
  }

  // ------------------------------------------------------------ setters

  /** NC also sets DT, and PF also sets SD. */
  predicate SetsAlso(m: Mod, o: Mod)
  {
    (m == NC && o == DT) || (m == PF && o == SD)
  }

  /** The second mask a setter ORs in with its own. */
  function Implied(m: Mod): nat
  {
    if m == NC then Mask(DT) else if m == PF then Mask(SD) else 0
  }

  lemma ImpliedBits(m: Mod, k: nat)
    ensures Bit(Implied(m), k) <==> k < 30 && SetsAlso(m, k as Mod)
  {
    if m == NC {
      MaskBits(DT, k);
    } else if m == PF {
      MaskBits(SD, k);
    } else {
      ZeroHasNoBit(k);
    }
  }

  /** The value after `mods.<m> = val`: True ORs in the modifier's mask (and
      the one it implies), False clears exactly the modifier's own mask. */
  function With(x: int, m: Mod, val: bool): (r: int)
    ensures IBit(r, m) == val
  {
    MaskBits(m, m);
    if val then
      IBitOr(IOr(x, Mask(m)), Implied(m), m);
      IBitOr(x, Mask(m), m);
      IOr(IOr(x, Mask(m)), Implied(m))
    else
      IBitAndNot(x, Mask(m), m);
      IAndNot(x, Mask(m))
  }

  /** Digit k after a setter: its own bit becomes the value set, the implied
      bit is set with True, and every other digit is kept. */
  lemma WithBit(x: int, m: Mod, val: bool, k: nat)
    ensures IBit(With(x, m, val), k) ==
      if k == m then val
      else if val && k < 30 && SetsAlso(m, k as Mod) then true
      else IBit(x, k)
  {
    MaskBits(m, k);
    if val {
      IBitOr(IOr(x, Mask(m)), Implied(m), k);
      IBitOr(x, Mask(m), k);
      ImpliedBits(m, k);
    } else {
      IBitAndNot(x, Mask(m), k);
    }
  }

  /** After a setter, the getter of the same modifier returns the value set. */
  lemma WithSets(x: int, m: Mod, val: bool)
    ensures Holds(With(x, m, val), m) == val
  {
    HoldsBit(With(x, m, val), m);
    WithBit(x, m, val, m);
  }

  /** A setter leaves every other modifier alone, except the bit NC and PF set
      alongside their own when set to True. */
  lemma WithOthers(x: int, m: Mod, val: bool, o: Mod)
    requires o != m && !(val && SetsAlso(m, o))
    ensures Holds(With(x, m, val), o) == Holds(x, o)
  {
    HoldsBit(With(x, m, val), o);
    HoldsBit(x, o);
    WithBit(x, m, val, o);
  }

  /** Setting NC sets DT as well, and setting PF sets SD. */
  lemma WithImplied(x: int, m: Mod, o: Mod)
    requires SetsAlso(m, o)
    ensures Holds(With(x, m, true), o)
  {
    HoldsBit(With(x, m, true), o);
    WithBit(x, m, true, o);
  }

  /** A setter changes nothing outside the thirty modifier bits. */
  lemma WithHighBits(x: int, m: Mod, val: bool, k: nat)
    requires k >= 30
    ensures IBit(With(x, m, val), k) == IBit(x, k)
  {
    WithBit(x, m, val, k);
  }

  /** Setting a modifier twice to the same value is the same as setting it once. */
  lemma WithIdempotent(x: int, m: Mod, val: bool)
    ensures With(With(x, m, val), m, val) == With(x, m, val)
  {
    var y := With(x, m, val);
    forall k: nat ensures IBit(With(y, m, val), k) == IBit(y, k) {
      WithBit(y, m, val, k);
      WithBit(x, m, val, k);
    }
    IBitsDetermine(With(y, m, val), y);
  }

  /** Setters of two modifiers that imply nothing commute. */
  lemma WithCommutes(x: int, a: Mod, va: bool, b: Mod, vb: bool)
    requires a != b && Implied(a) == 0 && Implied(b) == 0
    ensures With(With(x, a, va), b, vb) == With(With(x, b, vb), a, va)
  {
    var l := With(With(x, a, va), b, vb);
    var r := With(With(x, b, vb), a, va);
    forall k: nat ensures IBit(l, k) == IBit(r, k) {
      WithBit(With(x, a, va), b, vb, k);
      WithBit(x, a, va, k);
      WithBit(With(x, b, vb), a, va, k);
      WithBit(x, b, vb, k);
    }
    IBitsDetermine(l, r);
  }

  /** The modifier set of one score or play. */
  class Mods {
    var mods: int

    /** `Mods(n)` keeps n as given; nothing is normalised. */
    constructor (n: int)
      ensures mods == n
    {
      mods := n;
    }

    /** The property getter of modifier m (`mods.HD`, ...). */
    predicate Get(m: Mod)
      reads this
    {
      Holds(mods, m)
    }

    /** The getters as written: the `ScoreV2` getter reads `MASK_ScoreV2`,
        which the class does not define. */
    function GetAsWritten(m: Mod): (r: Result<bool>)
      reads this
      ensures m == V2 <==> r == Err(AttributeError)
      ensures m != V2 ==> r == Ok(Get(m))
    {
      if m == V2 then Err(AttributeError) else Ok(Get(m))
    }

    /** The property setter of modifier m. */
    method Set(m: Mod, val: bool)
      modifies this
      ensures mods == With(old(mods), m, val)
      ensures Get(m) == val
      ensures forall o: Mod :: o != m && !(val && SetsAlso(m, o)) ==> Get(o) == old(Get(o))
      ensures forall o: Mod :: val && SetsAlso(m, o) ==> Get(o)
    {
      ghost var before := mods;
      if val {
        mods := IOr(mods, Mask(m));
        if m == NC {
          mods := IOr(mods, Mask(DT));
        } else if m == PF {
          mods := IOr(mods, Mask(SD));
        }
      } else {
        mods := IAndNot(mods, Mask(m));
      }
      assert mods == With(before, m, val);
      WithSets(before, m, val);
      forall o: Mod | o != m && !(val && SetsAlso(m, o)) ensures Holds(mods, o) == Holds(before, o) {
        WithOthers(before, m, val, o);
      }
      forall o: Mod | val && SetsAlso(m, o) ensures Holds(mods, o) {
        WithImplied(before, m, o);
      }
    }

    /** `NM`: the value is 0.  Within the thirty named bits that is exactly
        when no modifier is on. */
    function NM(): (r: bool)
      reads this
      ensures r <==> mods == 0
      ensures 0 <= mods < Pow2(30) ==> (r <==> forall o: Mod :: !Get(o))
    {
      if 0 <= mods < Pow2(30) then
        NoModIsZero(mods);
        assert forall o: Mod :: Get(o) == Holds(mods, o);
        mods == 0
      else
        mods == 0
    }

    /** `int(Mods(n))` */
    function AsInt(): int
      reads this
    {
      mods
    }

    /** `Unranked` as evidently intended: any unranked modifier is on. */
    function Unranked(): (r: bool)
      reads this
      ensures r <==> exists o: Mod :: o in UNRANKED && Get(o)
    {
      MaskOfMeets(mods, UNRANKED);
      IAnd(mods, MASK_UNRANKED()) != 0
    }

    function Ranked(): (r: bool)
      reads this
      ensures r <==> forall o: Mod :: o in UNRANKED ==> !Get(o)
    {
      !Unranked()
    }

    /** `Unranked` as written reads `self.self`, which does not exist. */
    function UnrankedAsWritten(): (r: Result<bool>)
      reads this
      ensures r.Err? && r.error == AttributeError
    {
      Err(AttributeError)
    }

    /** `Ranked` as written evaluates `not self.unranked`, so the error of
        `Unranked` propagates before the negation. */
    function RankedAsWritten(): (r: Result<bool>)
      reads this
      ensures r.Err? && r.error == AttributeError
    {
      UnrankedAsWritten()
    }
  }

  /** Reading back the integer a set was made from gives that integer. */
  method IntRoundTrip(n: int) returns (r: int)
    ensures r == n
  {
    var m := new Mods(n);
    r := m.AsInt();
  }
}
