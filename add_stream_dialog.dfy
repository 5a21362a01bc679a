/**
 * The dialog that creates a stream ID (html/src/components/AddStreamDialog.tsx):
 * random default IDs built from a UUID-v4 template, the reset rules applied
 * when the dialog opens or closes, the validation and error messages of a
 * submit, and the conditions that enable the submit button.
 *
 * The random numbers `generateUUID` draws are inputs (one nibble per `x`
 * or `y` of the template, in template order); the server call is an input
 * too (`AddResult`).
 */
module AddStreamDialog {
  import opened ApiTypes
  import opened Text

  // ---------------------------------------------------------------------------
  // UUID generation

  /** `Math.random() * 16 | 0`: an integer in 0..15. */
  type Nibble = x: int | 0 <= x < 16

  /**
   * The UUID-v4 template, written as its five groups so that the verifier
   * does not evaluate the callback over the literal; `TemplateIsLiteral`
   * states that it is "xxxxxxxx-xxxx-4xxx-yxxx-xxxxxxxxxxxx".
   */
  const UUID_TEMPLATE: string := Slots(8) + "-" + Slots(4) + "-" + ("4" + Slots(3)) + "-" + ("y" + Slots(3)) + "-" + Slots(12)
  /** How many random numbers one UUID consumes: one per `x` or `y` of the template. */
  const UUID_RANDOM_DIGITS := 31

  predicate IsRandomSlot(c: char) { c == 'x' || c == 'y' }

  function RandomSlots(t: string): nat
    decreases |t|
  {
    if t == [] then 0 else (if IsRandomSlot(t[0]) then 1 else 0) + RandomSlots(t[1..])
  }

  /** `r & 0x3 | 0x8`: the nibble of a `y` slot, one of 8, 9, 10, 11. */
  function VariantNibble(r: Nibble): (v: Nibble)
    ensures 8 <= v <= 11 && v % 4 == r % 4
  {
    var b := (r as bv8 & 3) | 8;
    assert b == (r % 4) as bv8 + 8 by {
      assert r as bv8 & 3 == (r % 4) as bv8;
    }
    b as int
  }

  /**
   * The template callback: each `x` becomes the hexadecimal digit of the
   * next random number, each `y` that of its variant nibble, every other
   * character stays.
   */
  function FillTemplate(t: string, noise: seq<Nibble>): (u: string)
    requires |noise| == RandomSlots(t)
    ensures |u| == |t|
    decreases |t|
  {
    if t == [] then []
    else if t[0] == 'x' then [HexDigit(noise[0])] + FillTemplate(t[1..], noise[1..])
    else if t[0] == 'y' then [HexDigit(VariantNibble(noise[0]))] + FillTemplate(t[1..], noise[1..])
    else [t[0]] + FillTemplate(t[1..], noise)
  }

  /**
   * Position by position: the random slot at `i` takes the random number
   * numbered by the slots before it, an `x` as its hex digit and a `y` as
   * that of its variant nibble (one of 8, 9, a, b); the rest is kept.
   */
  lemma {:induction false} FillTemplateAt(t: string, noise: seq<Nibble>, i: int)
    requires |noise| == RandomSlots(t) && 0 <= i < |t|
    ensures IsRandomSlot(t[i]) ==> RandomSlots(t[..i]) < |noise|
    ensures t[i] == 'x' ==> FillTemplate(t, noise)[i] == HexDigit(noise[RandomSlots(t[..i])])
    ensures t[i] == 'y' ==> FillTemplate(t, noise)[i] == HexDigit(VariantNibble(noise[RandomSlots(t[..i])]))
    ensures t[i] == 'x' ==> IsLowerHexDigit(FillTemplate(t, noise)[i])
    ensures t[i] == 'y' ==> FillTemplate(t, noise)[i] in "89ab"
    ensures !IsRandomSlot(t[i]) ==> FillTemplate(t, noise)[i] == t[i]
    decreases |t|
  {
    if i > 0 {
      assert t[..i][0] == t[0] && t[..i][1..] == t[1..][..i - 1];
      if IsRandomSlot(t[0]) {
        FillTemplateAt(t[1..], noise[1..], i - 1);
      } else {
        FillTemplateAt(t[1..], noise, i - 1);
      }
    } else {
      assert t[..0] == [];
      if t[0] == 'y' {
        var v := VariantNibble(noise[0]);
        assert v == 8 || v == 9 || v == 10 || v == 11;
      }
    }
  }

  lemma {:induction false} RandomSlotsConcat(a: string, b: string)
    ensures RandomSlots(a + b) == RandomSlots(a) + RandomSlots(b)
    decreases |a|
  {
    if a != [] {
      RandomSlotsConcat(a[1..], b);
      assert (a + b)[0] == a[0] && (a + b)[1..] == a[1..] + b;
    } else {
      assert a + b == b;
    }
  }

  /** A run of `n` random slots. */
  function Slots(n: nat): string { seq(n, _ => 'x') }

  lemma {:induction false} SlotsCount(n: nat)
    ensures RandomSlots(Slots(n)) == n
  {
    if n > 0 {
      SlotsCount(n - 1);
      assert Slots(n)[1..] == Slots(n - 1);
    }
  }

  lemma TemplateIsLiteral()
    ensures UUID_TEMPLATE == "xxxxxxxx-xxxx-4xxx-yxxx-xxxxxxxxxxxx"
  {
  }

  /** The characters of the template, position by position. */
  lemma TemplateShape()
    ensures |UUID_TEMPLATE| == 36
    ensures forall i :: 0 <= i < 36 ==> (UUID_TEMPLATE[i] == '-' <==> i == 8 || i == 13 || i == 18 || i == 23)
    ensures UUID_TEMPLATE[14] == '4' && UUID_TEMPLATE[19] == 'y'
    ensures forall i :: 0 <= i < 36 && i != 8 && i != 13 && i != 18 && i != 14 && i != 19 && i != 23 ==> UUID_TEMPLATE[i] == 'x'
  {
    TemplateIsLiteral();
    LiteralShape("xxxxxxxx-xxxx-4xxx-yxxx-xxxxxxxxxxxx");
  }

  lemma LiteralShape(t: string)
    requires t == "xxxxxxxx-xxxx-4xxx-yxxx-xxxxxxxxxxxx"
    ensures |t| == 36
    ensures forall i :: 0 <= i < 36 ==> (t[i] == '-' <==> i == 8 || i == 13 || i == 18 || i == 23)
    ensures t[14] == '4' && t[19] == 'y'
    ensures forall i :: 0 <= i < 36 && i != 8 && i != 13 && i != 18 && i != 14 && i != 19 && i != 23 ==> t[i] == 'x'
  {
  }

  /** One UUID consumes 31 random numbers. */
  lemma TemplateSlotCount()
    ensures RandomSlots(UUID_TEMPLATE) == UUID_RANDOM_DIGITS
  {
    TemplateSlots(UUID_TEMPLATE);
  }

  lemma TemplateSlots(t: string)
    requires t == Slots(8) + "-" + Slots(4) + "-" + ("4" + Slots(3)) + "-" + ("y" + Slots(3)) + "-" + Slots(12)
    ensures RandomSlots(t) == UUID_RANDOM_DIGITS
  {
    var g1, g2, g3, g4, g5 := Slots(8), Slots(4), "4" + Slots(3), "y" + Slots(3), Slots(12);
    SlotsCount(3);
    SlotsCount(4);
    SlotsCount(8);
    SlotsCount(12);
    RandomSlotsConcat("4", Slots(3));
    RandomSlotsConcat("y", Slots(3));
    var l2 := g1 + "-" + g2;
    var l3 := l2 + "-" + g3;
    var l4 := l3 + "-" + g4;
    RandomSlotsDash(g1, g2);
    RandomSlotsDash(l2, g3);
    RandomSlotsDash(l3, g4);
    RandomSlotsDash(l4, g5);
  }

  /** A dash between two groups adds no slot. */
  lemma RandomSlotsDash(a: string, b: string)
    ensures RandomSlots(a + "-" + b) == RandomSlots(a) + RandomSlots(b)
  {
    RandomSlotsConcat(a, "-");
    RandomSlotsConcat(a + "-", b);
  }


  /** Filling any template of the UUID's shape gives a string of the UUID's shape. */
  lemma FillUuidShape(t: string, noise: seq<Nibble>)
    requires |t| == 36 && |noise| == RandomSlots(t)
    requires forall i :: 0 <= i < 36 ==> (t[i] == '-' <==> i == 8 || i == 13 || i == 18 || i == 23)
    requires t[14] == '4' && t[19] == 'y'
    requires forall i :: 0 <= i < 36 && i != 8 && i != 13 && i != 18 && i != 14 && i != 19 && i != 23 ==> t[i] == 'x'
    ensures var u := FillTemplate(t, noise);
            && (forall i :: 0 <= i < 36 ==> (u[i] == '-' <==> i == 8 || i == 13 || i == 18 || i == 23))
            && u[14] == '4' && u[19] in "89ab"
            && (forall i :: 0 <= i < 36 && i != 8 && i != 13 && i != 18 && i != 23 ==> IsLowerHexDigit(u[i]))
  {
    forall i | 0 <= i < 36
      ensures t[i] == 'x' ==> IsLowerHexDigit(FillTemplate(t, noise)[i])
      ensures t[i] == 'y' ==> FillTemplate(t, noise)[i] in "89ab"
      ensures !IsRandomSlot(t[i]) ==> FillTemplate(t, noise)[i] == t[i]
    {
      FillTemplateAt(t, noise, i);
    }
  }

  /** The hex digits of a run of random numbers, in order. */
  function HexDigits(ns: seq<Nibble>): string
  {
    seq(|ns|, k requires 0 <= k < |ns| => HexDigit(ns[k]))
  }

  /** The digit a random slot `c` shows for the random number `r`. */
  function SlotDigit(c: char, r: Nibble): char
  {
    if c == 'x' then HexDigit(r) else HexDigit(VariantNibble(r))
  }

  /** A template that opens with a random slot spends the first random number on it. */
  lemma FillSlotHead(t: string, noise: seq<Nibble>)
    requires t != [] && IsRandomSlot(t[0]) && |noise| == RandomSlots(t)
    ensures |noise| >= 1 && RandomSlots(t[1..]) == |noise| - 1
    ensures FillTemplate(t, noise) == [SlotDigit(t[0], noise[0])] + FillTemplate(t[1..], noise[1..])
  {
  }

  /** A template that opens with any other character copies it and spends nothing. */
  lemma FillFixedHead(t: string, noise: seq<Nibble>)
    requires t != [] && !IsRandomSlot(t[0]) && |noise| == RandomSlots(t)
    ensures RandomSlots(t[1..]) == |noise|
    ensures FillTemplate(t, noise) == [t[0]] + FillTemplate(t[1..], noise)
  {
  }

  /** Filling a concatenation fills each part with its own share of the random numbers. */
  lemma {:induction false} FillTemplateConcat(a: string, b: string, noise: seq<Nibble>)
    requires |noise| == RandomSlots(a) + RandomSlots(b)
    ensures RandomSlots(a + b) == |noise|
    ensures FillTemplate(a + b, noise) == FillTemplate(a, noise[..RandomSlots(a)]) + FillTemplate(b, noise[RandomSlots(a)..])
    decreases |a|
  {
    RandomSlotsConcat(a, b);
    var ra := RandomSlots(a);
    if a == [] {
      assert a + b == b && noise[0..] == noise;
    } else {
      var ab := a + b;
      assert ab[0] == a[0] && ab[1..] == a[1..] + b;
      var na := noise[..ra];
      var head, rest := [a[0]], noise;
      if IsRandomSlot(a[0]) {
        FillSlotHead(ab, noise);
        FillSlotHead(a, na);
        head, rest := [SlotDigit(a[0], noise[0])], noise[1..];
        assert na[0] == noise[0] && rest[..ra - 1] == na[1..] && rest[ra - 1..] == noise[ra..];
      } else {
        FillFixedHead(ab, noise);
        FillFixedHead(a, na);
      }
      FillTemplateConcat(a[1..], b, rest);
      var x, y := FillTemplate(a[1..], rest[..RandomSlots(a[1..])]), FillTemplate(b, rest[RandomSlots(a[1..])..]);
      ConcatAssoc3(head, x, y);

    }
  }

  lemma ConcatAssoc3(a: string, b: string, c: string)
    ensures a + (b + c) == (a + b) + c
  {
  }

  /** A run of plain slots becomes the hex digits of its random numbers. */
  lemma {:induction false} FillSlots(n: nat, ns: seq<Nibble>)
    requires |ns| == n
    ensures RandomSlots(Slots(n)) == n
    ensures FillTemplate(Slots(n), ns) == HexDigits(ns)
  {
    SlotsCount(n);
    if n > 0 {
      assert Slots(n)[1..] == Slots(n - 1);
      FillSlots(n - 1, ns[1..]);
    }
  }

  /** Filling two parts joined by a dash. */
  lemma FillDash(a: string, b: string, noise: seq<Nibble>)
    requires |noise| == RandomSlots(a) + RandomSlots(b)
    ensures RandomSlots(a + "-" + b) == |noise|
    ensures FillTemplate(a + "-" + b, noise) == FillTemplate(a, noise[..RandomSlots(a)]) + "-" + FillTemplate(b, noise[RandomSlots(a)..])
  {
    RandomSlotsConcat(a, "-");
    FillTemplateConcat(a + "-", b, noise);
    FillTemplateConcat(a, "-", noise[..RandomSlots(a)]);
    assert noise[..RandomSlots(a)][..RandomSlots(a)] == noise[..RandomSlots(a)];
  }

  /** A group that opens with a fixed or a variant character, then three plain slots. */
  lemma FillLeadGroup(c: char, ns: seq<Nibble>)
    requires c == '4' || c == 'y'
    requires |ns| == if c == 'y' then 4 else 3
    ensures RandomSlots([c] + Slots(3)) == |ns|
    ensures c == '4' ==> FillTemplate([c] + Slots(3), ns) == "4" + HexDigits(ns)
    ensures c == 'y' ==> FillTemplate([c] + Slots(3), ns) == [HexDigit(VariantNibble(ns[0]))] + HexDigits(ns[1..])
  {
    var g := [c] + Slots(3);
    assert g[0] == c && g[1..] == Slots(3);
    SlotsCount(3);
    if c == '4' {
      FillSlots(3, ns);
    } else {
      FillSlots(3, ns[1..]);
    }
  }

  /** The template up to its second, third and fourth dash. */
  const UUID_UPTO_2: string := Slots(8) + "-" + Slots(4)
  const UUID_UPTO_3: string := UUID_UPTO_2 + "-" + ("4" + Slots(3))
  const UUID_UPTO_4: string := UUID_UPTO_3 + "-" + ("y" + Slots(3))

  lemma FillUpTo2(noise: seq<Nibble>)
    requires |noise| == UUID_RANDOM_DIGITS
    ensures RandomSlots(UUID_UPTO_2) == 12
    ensures FillTemplate(UUID_UPTO_2, noise[..12]) == HexDigits(noise[..8]) + "-" + HexDigits(noise[8..12])
  {
    var ns := noise[..12];
    SlotsCount(8);
    SlotsCount(4);
    FillDash(Slots(8), Slots(4), ns);
    FillSlots(8, ns[..8]);
    FillSlots(4, ns[8..]);
    assert ns[..8] == noise[..8] && ns[8..] == noise[8..12];
  }

  lemma FillUpTo3(noise: seq<Nibble>)
    requires |noise| == UUID_RANDOM_DIGITS
    ensures RandomSlots(UUID_UPTO_2) == 12 && RandomSlots(UUID_UPTO_3) == 15
    ensures FillTemplate(UUID_UPTO_3, noise[..15])
            == FillTemplate(UUID_UPTO_2, noise[..12]) + "-" + ("4" + HexDigits(noise[12..15]))
  {
    var ns := noise[..15];
    FillUpTo2(noise);
    FillLeadGroup('4', ns[12..]);
    assert "4" + Slots(3) == ['4'] + Slots(3);
    FillDash(UUID_UPTO_2, "4" + Slots(3), ns);
    assert ns[..12] == noise[..12] && ns[12..] == noise[12..15];
  }

  lemma FillUpTo4(noise: seq<Nibble>)
    requires |noise| == UUID_RANDOM_DIGITS
    ensures RandomSlots(UUID_UPTO_3) == 15 && RandomSlots(UUID_UPTO_4) == 19
    ensures FillTemplate(UUID_UPTO_4, noise[..19])
            == FillTemplate(UUID_UPTO_3, noise[..15]) + "-" + ([HexDigit(VariantNibble(noise[15]))] + HexDigits(noise[16..19]))
  {
    var ns := noise[..19];
    FillUpTo3(noise);
    FillLeadGroup('y', ns[15..]);
    assert "y" + Slots(3) == ['y'] + Slots(3);
    FillDash(UUID_UPTO_3, "y" + Slots(3), ns);
    assert ns[..15] == noise[..15] && ns[15..][0] == noise[15] && ns[15..][1..] == noise[16..19];
  }

  lemma FillWhole(noise: seq<Nibble>)
    requires |noise| == UUID_RANDOM_DIGITS
    ensures RandomSlots(UUID_UPTO_4) == 19 && RandomSlots(UUID_TEMPLATE) == UUID_RANDOM_DIGITS
    ensures FillTemplate(UUID_TEMPLATE, noise) == FillTemplate(UUID_UPTO_4, noise[..19]) + "-" + HexDigits(noise[19..])
  {
    assert UUID_TEMPLATE == UUID_UPTO_4 + "-" + Slots(12);
    FillUpTo4(noise);
    SlotsCount(12);
    FillDash(UUID_UPTO_4, Slots(12), noise);
    FillSlots(12, noise[19..]);
  }

  /** The UUID group by group: which random number becomes which digit. */
  lemma UuidDigits(noise: seq<Nibble>)
    requires |noise| == UUID_RANDOM_DIGITS
    ensures RandomSlots(UUID_TEMPLATE) == UUID_RANDOM_DIGITS
    ensures FillTemplate(UUID_TEMPLATE, noise)
            == HexDigits(noise[..8]) + "-" + HexDigits(noise[8..12]) + "-" + ("4" + HexDigits(noise[12..15])) + "-"
               + ([HexDigit(VariantNibble(noise[15]))] + HexDigits(noise[16..19])) + "-" + HexDigits(noise[19..])
  {
    FillWhole(noise);
    FillUpTo4(noise);
    FillUpTo3(noise);
    FillUpTo2(noise);
  }

  /**
   * `generateUUID()`: 36 characters, dashes at 8, 13, 18 and 23, the version
   * digit '4' at 14, the variant digit 8, 9, a or b at 19, and lower-case hex
   * digits everywhere else: the random numbers in order, the sixteenth
   * through its variant nibble.
   */
  function GenerateUuid(noise: seq<Nibble>): (u: string)
    requires |noise| == UUID_RANDOM_DIGITS
    ensures |u| == 36
    ensures forall i :: 0 <= i < 36 ==> (u[i] == '-' <==> i == 8 || i == 13 || i == 18 || i == 23)
    ensures u[14] == '4' && u[19] in "89ab"
    ensures forall i :: 0 <= i < 36 && i != 8 && i != 13 && i != 18 && i != 23 ==> IsLowerHexDigit(u[i])
    ensures u == HexDigits(noise[..8]) + "-" + HexDigits(noise[8..12]) + "-" + ("4" + HexDigits(noise[12..15])) + "-"
                 + ([HexDigit(VariantNibble(noise[15]))] + HexDigits(noise[16..19])) + "-" + HexDigits(noise[19..])
  {
    TemplateShape();
    TemplateSlotCount();
    FillUuidShape(UUID_TEMPLATE, noise);
    UuidDigits(noise);
    FillTemplate(UUID_TEMPLATE, noise)
  }

  /** `s.replace(/-/g, '')`. */
  function StripDashes(s: string): (r: string)
    ensures |r| <= |s| && '-' !in r
    decreases |s|
  {
    if s == [] then [] else if s[0] == '-' then StripDashes(s[1..]) else [s[0]] + StripDashes(s[1..])
  }

  lemma {:induction false} StripDashesConcat(a: string, b: string)
    ensures StripDashes(a + b) == StripDashes(a) + StripDashes(b)
    decreases |a|
  {
    if a != [] {
      StripDashesConcat(a[1..], b);
      assert (a + b)[0] == a[0] && (a + b)[1..] == a[1..] + b;
    } else {
      assert a + b == b;
    }
  }

  lemma {:induction false} StripDashesDashFree(a: string)
    requires '-' !in a
    ensures StripDashes(a) == a
    decreases |a|
  {
    if a != [] {
      StripDashesDashFree(a[1..]);
    }
  }

  /** The 8-4-4-4-12 grouping of 32 hex digits. */
  function Hyphenate(h: string): string
    requires |h| == 32
  {
    h[..8] + "-" + h[8..12] + "-" + h[12..16] + "-" + h[16..20] + "-" + h[20..]
  }

  /** Removing dashes from the part of `u` from `start` on, when the first dash there is at `start + len`. */
  lemma StripDashesGroup(u: string, start: nat, len: nat)
    requires start + len < |u| && u[start + len] == '-'
    requires forall i :: start <= i < start + len ==> u[i] != '-'
    ensures StripDashes(u[start..]) == u[start..start + len] + StripDashes(u[start + len + 1..])
  {
    var g := u[start..start + len];
    assert u[start..] == g + "-" + u[start + len + 1..];
    assert '-' !in g by {
      forall i | 0 <= i < len ensures g[i] != '-' { assert g[i] == u[start + i]; }
    }
    StripDashesConcat(g + "-", u[start + len + 1..]);
    StripDashesConcat(g, "-");
    StripDashesDashFree(g);
  }

  lemma StripDashesGroupLast(u: string, start: nat)
    requires start <= |u|
    requires forall i :: start <= i < |u| ==> u[i] != '-'
    ensures StripDashes(u[start..]) == u[start..]
  {
    assert '-' !in u[start..] by {
      forall i | 0 <= i < |u| - start ensures u[start..][i] != '-' { assert u[start..][i] == u[start + i]; }
    }
    StripDashesDashFree(u[start..]);
  }

  /** A 36-character string dashed exactly at 8, 13, 18, 23 loses just those four characters. */
  lemma StripDashesAtGroups(u: string)
    requires |u| == 36
    requires forall i :: 0 <= i < 36 ==> (u[i] == '-' <==> i == 8 || i == 13 || i == 18 || i == 23)
    ensures StripDashes(u) == u[..8] + u[9..13] + u[14..18] + u[19..23] + u[24..]
  {
    var g1, g2, g3, g4, g5 := u[..8], u[9..13], u[14..18], u[19..23], u[24..];
    StripDashesGroupLast(u, 24);
    StripDashesGroup(u, 19, 4);
    StripDashesGroup(u, 14, 4);
    StripDashesGroup(u, 9, 4);
    StripDashesGroup(u, 0, 8);
    assert u[0..] == u && u[0..8] == g1;
    ConcatAssoc5(g1, g2, g3, g4, g5);
  }

  lemma ConcatAssoc5(a: string, b: string, c: string, d: string, e: string)
    ensures a + (b + (c + (d + e))) == a + b + c + d + e
  {
  }

  /** Joining the five groups of a dashed string and regrouping them gives it back. */
  lemma RegroupDigits(u: string)
    requires |u| == 36
    requires u[8] == '-' && u[13] == '-' && u[18] == '-' && u[23] == '-'
    ensures var h := u[..8] + u[9..13] + u[14..18] + u[19..23] + u[24..];
            && |h| == 32 && Hyphenate(h) == u
            && (forall i :: 0 <= i < 8 ==> h[i] == u[i])
            && (forall i :: 8 <= i < 12 ==> h[i] == u[i + 1])
            && (forall i :: 12 <= i < 16 ==> h[i] == u[i + 2])
            && (forall i :: 16 <= i < 20 ==> h[i] == u[i + 3])
            && (forall i :: 20 <= i < 32 ==> h[i] == u[i + 4])
  {
    var h := u[..8] + u[9..13] + u[14..18] + u[19..23] + u[24..];
    assert h[..8] == u[..8];
    assert h[8..12] == u[9..13];
    assert h[12..16] == u[14..18];
    assert h[16..20] == u[19..23];
    assert h[20..] == u[24..];
    assert u == u[..8] + "-" + u[9..13] + "-" + u[14..18] + "-" + u[19..23] + "-" + u[24..];
  }

  /**
   * `generateUUID().replace(/-/g, '')`: 32 lower-case hex digits with the
   * version digit at 12 and the variant at 16.
   */
  function CompactUuid(noise: seq<Nibble>): (h: string)
    requires |noise| == UUID_RANDOM_DIGITS
    ensures |h| == 32
    ensures forall i :: 0 <= i < 32 ==> IsLowerHexDigit(h[i])
    ensures h[12] == '4' && h[16] in "89ab"
  {
    var u := GenerateUuid(noise);
    StripDashesAtGroups(u);
    RegroupDigits(u);
    StripDashes(u)
  }

  /** Stripping the dashes loses nothing: regrouping the 32 digits gives the UUID back. */
  lemma HyphenateCompactUuid(noise: seq<Nibble>)
    requires |noise| == UUID_RANDOM_DIGITS
    ensures Hyphenate(CompactUuid(noise)) == GenerateUuid(noise)
  {
    var u := GenerateUuid(noise);
    StripDashesAtGroups(u);
    RegroupDigits(u);
  }

  const PUBLISHER_PREFIX := "live_"
  const PLAYER_PREFIX := "play_"

  predicate IsGeneratedId(id: string, prefix: string)
  {
    && |id| == |prefix| + 32 && id[..|prefix|] == prefix
    && forall i :: |prefix| <= i < |id| ==> IsLowerHexDigit(id[i])
  }

  /** The ID a regenerate button or the reset produces: the prefix and 32 hex digits. */
  function GeneratedId(prefix: string, noise: seq<Nibble>): (id: string)
    requires |noise| == UUID_RANDOM_DIGITS
    ensures IsGeneratedId(id, prefix)
    ensures id[|prefix|..] == CompactUuid(noise)
  {
    var h := CompactUuid(noise);
    assert (prefix + h)[|prefix|..] == h;
    prefix + h
  }

  datatype DefaultIds = DefaultIds(publisherId: string, playerId: string)

  /** `generateDefaultIds()`: the publisher's UUID is drawn first, then the player's. */
  function GenerateDefaultIds(publisherNoise: seq<Nibble>, playerNoise: seq<Nibble>): (ids: DefaultIds)
    requires |publisherNoise| == UUID_RANDOM_DIGITS && |playerNoise| == UUID_RANDOM_DIGITS
    ensures IsGeneratedId(ids.publisherId, PUBLISHER_PREFIX) && IsGeneratedId(ids.playerId, PLAYER_PREFIX)
    ensures ids.publisherId != ids.playerId
  {
    var p, q := GeneratedId(PUBLISHER_PREFIX, publisherNoise), GeneratedId(PLAYER_PREFIX, playerNoise);
    PrefixesKeepIdsApart(p, q);
    DefaultIds(p, q)
  }

  lemma PrefixesKeepIdsApart(p: string, q: string)
    requires IsGeneratedId(p, PUBLISHER_PREFIX) && IsGeneratedId(q, PLAYER_PREFIX)
    ensures p != q
  {
    assert p[..5][1] == 'i' && q[..5][1] == 'l';
  }

  // ---------------------------------------------------------------------------
  // Validation and submission

  const REQUIRED_MESSAGE := "Publisher and Player IDs are required"
  const DIFFERENT_MESSAGE := "Publisher and Player IDs must be different"
  const GENERIC_FAILURE_MESSAGE := "Failed to add stream ID. Please try again."
  const CONFLICT_PREFIX := "Stream ID with player '"
  const CONFLICT_SUFFIX := "' already exists"

  /**
   * The two checks of `handleSubmit`, in order: both trimmed IDs present,
   * then the trimmed IDs distinct.
   */
  function ValidationError(publisher: string, player: string): (e: Option<string>)
    ensures e.Some? ==> e.value == REQUIRED_MESSAGE || e.value == DIFFERENT_MESSAGE
    ensures e.None? <==> !AllWhitespace(publisher) && !AllWhitespace(player) && Trim(publisher) != Trim(player)
  {
    TrimEmptyIffBlank(publisher);
    TrimEmptyIffBlank(player);
    if Trim(publisher) == "" || Trim(player) == "" then Some(REQUIRED_MESSAGE)
    else if Trim(publisher) == Trim(player) then Some(DIFFERENT_MESSAGE)
    else None
  }

  /**
   * The three outcomes of validation: an ID that is blank is reported first,
   * then two IDs that agree after trimming; otherwise the input is accepted.
   */
  lemma ValidationCases(publisher: string, player: string)
    ensures ValidationError(publisher, player) == Some(REQUIRED_MESSAGE) <==> AllWhitespace(publisher) || AllWhitespace(player)
    ensures ValidationError(publisher, player) == Some(DIFFERENT_MESSAGE) <==>
              !AllWhitespace(publisher) && !AllWhitespace(player) && Trim(publisher) == Trim(player)
    ensures ValidationError(publisher, player).None? <==>
              !AllWhitespace(publisher) && !AllWhitespace(player) && Trim(publisher) != Trim(player)
  {
    TrimEmptyIffBlank(publisher);
    TrimEmptyIffBlank(player);
  }

  /** The record sent to the server and handed to the parent: trimmed IDs, blank description dropped. */
  function Payload(publisher: string, player: string, description: string): (s: StreamId)
    ensures s.publisher == Trim(publisher) && s.player == Trim(player)
    ensures s.description.None? <==> AllWhitespace(description)
    ensures s.description.Some? ==> s.description.value == Trim(description) && s.description.value != ""
  {
    TrimEmptyIffBlank(description);
    StreamId(Trim(publisher), Trim(player), if Trim(description) == "" then None else Some(Trim(description)))
  }

  /** How the server call of a submit ended. */
  datatype AddResult =
    | Added
    | Rejected(status: Option<int>, message: Option<string>)  // the HTTP status and `data.message`, when present

  /**
   * The error text of a rejected submit: a 409 names the player ID as typed
   * (untrimmed); otherwise the server's non-empty message, else a generic text.
   */
  function FailureMessage(status: Option<int>, message: Option<string>, player: string): (m: string)
    ensures status == Some(409) ==> m == CONFLICT_PREFIX + player + CONFLICT_SUFFIX
    ensures status != Some(409) && message.Some? && message.value != "" ==> m == message.value
    ensures status != Some(409) && (message.None? || message.value == "") ==> m == GENERIC_FAILURE_MESSAGE
  {
    if status == Some(409) then CONFLICT_PREFIX + player + CONFLICT_SUFFIX
    else if message.Some? && message.value != "" then message.value
    else GENERIC_FAILURE_MESSAGE
  }

  /** The conflict text can be read back: it carries the player ID exactly as it was typed. */
  lemma ConflictMessageNamesPlayer(player: string, message: Option<string>)
    ensures var m := FailureMessage(Some(409), message, player);
            && StartsWith(m, CONFLICT_PREFIX) && EndsWith(m, CONFLICT_SUFFIX)
            && m[|CONFLICT_PREFIX|..|m| - |CONFLICT_SUFFIX|] == player
  {
    var m := FailureMessage(Some(409), message, player);
    assert m[..|CONFLICT_PREFIX|] == CONFLICT_PREFIX;
    assert m[|m| - |CONFLICT_SUFFIX|..] == CONFLICT_SUFFIX;
    assert m[|CONFLICT_PREFIX|..|m| - |CONFLICT_SUFFIX|] == player;
  }

  /** `areIdsIdentical`: both trimmed IDs non-empty and equal. */
  predicate AreIdsIdentical(publisher: string, player: string)
    ensures AreIdsIdentical(publisher, player) <==>
              !AllWhitespace(publisher) && !AllWhitespace(player) && Trim(publisher) == Trim(player)
  {
    TrimEmptyIffBlank(publisher);
    TrimEmptyIffBlank(player);
    Trim(publisher) != "" && Trim(player) != "" && Trim(publisher) == Trim(player)
  }

  /** The live warning shows exactly when a submit would fail the second check. */
  lemma IdenticalWarningMatchesSubmit(publisher: string, player: string)
    ensures AreIdsIdentical(publisher, player) <==> ValidationError(publisher, player) == Some(DIFFERENT_MESSAGE)
  {
    TrimEmptyIffBlank(publisher);
    TrimEmptyIffBlank(player);
  }

  /** `disabled={loading || !publisher.trim() || !player.trim() || areIdsIdentical}`. */
  predicate SubmitDisabled(loading: bool, publisher: string, player: string)
    ensures loading ==> SubmitDisabled(loading, publisher, player)
    ensures !loading ==>
              (SubmitDisabled(loading, publisher, player) <==>
                 AllWhitespace(publisher) || AllWhitespace(player) || Trim(publisher) == Trim(player))
  {
    TrimEmptyIffBlank(publisher);
    TrimEmptyIffBlank(player);
    loading || Trim(publisher) == "" || Trim(player) == "" || AreIdsIdentical(publisher, player)
  }

  /** The button is enabled exactly when not loading and a submit would pass validation. */
  lemma SubmitDisabledIffInvalid(loading: bool, publisher: string, player: string)
    ensures SubmitDisabled(loading, publisher, player) <==> loading || ValidationError(publisher, player).Some?
  {
  }

  /** `if (prefillPublisher)`: present and non-empty. */
  predicate IsPrefilled(prefill: Option<string>) { prefill.Some? && prefill.value != "" }

  // ---------------------------------------------------------------------------
  // The dialog's state

  class Form {
    var publisher: string
    var player: string
    var description: string
    var error: Option<string>
    var loading: bool

    constructor ()
      ensures publisher == "" && player == "" && description == "" && error == None && !loading
    {
      publisher, player, description, error, loading := "", "", "", None, false;
    }

    /**
     * The reset effect, run when `open` or the prefill changes: closing
     * clears the fields and the error; opening with a prefill takes it as
     * the publisher and draws a player ID; otherwise both IDs are drawn.
     */
    method Reset(open: bool, prefill: Option<string>, firstNoise: seq<Nibble>, secondNoise: seq<Nibble>)
      requires |firstNoise| == UUID_RANDOM_DIGITS && |secondNoise| == UUID_RANDOM_DIGITS
      modifies this
      ensures !open ==> publisher == "" && player == "" && description == "" && error == None
      ensures open && IsPrefilled(prefill) ==>
                && publisher == prefill.value && player == GeneratedId(PLAYER_PREFIX, firstNoise)
                && description == old(description) && error == old(error)
      ensures open && !IsPrefilled(prefill) ==>
                && publisher == GenerateDefaultIds(firstNoise, secondNoise).publisherId
                && player == GenerateDefaultIds(firstNoise, secondNoise).playerId
                && description == old(description) && error == old(error)
      ensures loading == old(loading)
    {
      var p, q, d, e := publisher, player, description, error;
      if !open {
        p, q, d, e := "", "", "", None;
      } else if IsPrefilled(prefill) {
        p, q := prefill.value, GeneratedId(PLAYER_PREFIX, firstNoise);
      } else {
        var ids := GenerateDefaultIds(firstNoise, secondNoise);
        p, q := ids.publisherId, ids.playerId;
      }
      publisher, player, description, error := p, q, d, e;
    }

    /**
     * `handleSubmit` with the server's answer `result`.  A validation error
     * is shown and nothing is sent; otherwise the trimmed payload is sent,
     * and on success the dialog asks to close, on failure the mapped message
     * is shown.  Loading is off afterwards.
     */
    method Submit(result: AddResult) returns (sent: Option<StreamId>, closeRequested: bool)
      modifies this
      ensures publisher == old(publisher) && player == old(player) && description == old(description)
      ensures var invalid := ValidationError(old(publisher), old(player));
              invalid.Some? ==> sent == None && !closeRequested && error == invalid && loading == old(loading)
      ensures ValidationError(old(publisher), old(player)).None? ==>
                && sent == Some(Payload(old(publisher), old(player), old(description)))
                && !loading
                && (result.Added? ==> error == None && closeRequested)
                && (result.Rejected? ==> !closeRequested && error == Some(FailureMessage(result.status, result.message, old(player))))
    {
      var invalid := ValidationError(publisher, player);
      if invalid.Some? {
        sent, closeRequested := None, false;
        error := invalid;
      } else {
        // loading is raised for the duration of the call and lowered in `finally`
        sent := Some(Payload(publisher, player, description));
        if result.Added? {
          closeRequested, error := true, None;
        } else {
          closeRequested, error := false, Some(FailureMessage(result.status, result.message, player));
        }
        loading := false;
      }
    }

    /** The publisher's regenerate button: redraws the ID unless the publisher is prefilled. */
    method RegeneratePublisher(prefill: Option<string>, noise: seq<Nibble>)
      requires |noise| == UUID_RANDOM_DIGITS
      modifies this
      ensures IsPrefilled(prefill) ==> publisher == old(publisher)
      ensures !IsPrefilled(prefill) ==> publisher == GeneratedId(PUBLISHER_PREFIX, noise)
      ensures player == old(player) && description == old(description) && error == old(error) && loading == old(loading)
    {
      if !IsPrefilled(prefill) {
        publisher := GeneratedId(PUBLISHER_PREFIX, noise);
      }
    }

    /** The player's regenerate button: always redraws. */
    method RegeneratePlayer(noise: seq<Nibble>)
      requires |noise| == UUID_RANDOM_DIGITS
      modifies this
      ensures player == GeneratedId(PLAYER_PREFIX, noise)
      ensures publisher == old(publisher) && description == old(description) && error == old(error) && loading == old(loading)
    {
      player := GeneratedId(PLAYER_PREFIX, noise);
    }

    /**
     * Typing in the publisher field: the field is read-only while prefilled
     * or outside advanced mode, and the handler itself keeps the value only
     * in advanced mode, so the value changes only in advanced mode without
     * a prefill.
     */
    method EditPublisher(advancedMode: bool, prefill: Option<string>, value: string)
      modifies this
      ensures publisher == if advancedMode && !IsPrefilled(prefill) then value else old(publisher)
      ensures player == old(player) && description == old(description) && error == old(error) && loading == old(loading)
    {
      if advancedMode && !IsPrefilled(prefill) {
        publisher := value;
      }
    }

    /** Typing in the player field: read-only, and ignored, outside advanced mode. */
    method EditPlayer(advancedMode: bool, value: string)
      modifies this
      ensures player == if advancedMode then value else old(player)
      ensures publisher == old(publisher) && description == old(description) && error == old(error) && loading == old(loading)
    {
      if advancedMode {
        player := value;
      }
    }

    /** Typing in the description field: always kept. */
    method EditDescription(value: string)
      modifies this
      ensures description == value
      ensures publisher == old(publisher) && player == old(player) && error == old(error) && loading == old(loading)
    {
      description := value;
    }

    /** Closing the error alert. */
    method DismissError()
      modifies this
      ensures error == None
      ensures publisher == old(publisher) && player == old(player) && description == old(description) && loading == old(loading)
    {
      error := None;
    }
  }

  /** A freshly opened dialog without prefill can be submitted as it is. */
  lemma FreshDefaultsAreValid(firstNoise: seq<Nibble>, secondNoise: seq<Nibble>)
    requires |firstNoise| == UUID_RANDOM_DIGITS && |secondNoise| == UUID_RANDOM_DIGITS
    ensures var ids := GenerateDefaultIds(firstNoise, secondNoise);
            ValidationError(ids.publisherId, ids.playerId).None?
  {
    var ids := GenerateDefaultIds(firstNoise, secondNoise);
    GeneratedIdsNeedNoTrim(ids.publisherId, ids.playerId, PUBLISHER_PREFIX, PLAYER_PREFIX);
    DistinctTrimmedIdsAreValid(ids.publisherId, ids.playerId);
  }

  lemma DistinctTrimmedIdsAreValid(publisher: string, player: string)
    requires Trim(publisher) == publisher != "" && Trim(player) == player != "" && publisher != player
    ensures ValidationError(publisher, player).None?
  {
  }

  lemma GeneratedIdsNeedNoTrim(publisher: string, player: string, publisherPrefix: string, playerPrefix: string)
    requires IsGeneratedId(publisher, publisherPrefix) && |publisherPrefix| > 0 && 'a' <= publisherPrefix[0] <= 'z'
    requires IsGeneratedId(player, playerPrefix) && |playerPrefix| > 0 && 'a' <= playerPrefix[0] <= 'z'
    ensures Trim(publisher) == publisher != "" && Trim(player) == player != ""
  {
    GeneratedIdIsTrimmed(publisher, publisherPrefix);
    GeneratedIdIsTrimmed(player, playerPrefix);
  }

  /** A generated ID starts with a letter and ends with a hex digit, so trimming keeps it. */
  lemma GeneratedIdIsTrimmed(id: string, prefix: string)
    requires IsGeneratedId(id, prefix) && |prefix| > 0 && 'a' <= prefix[0] <= 'z'
    ensures Trim(id) == id != ""
  {
    assert id[0] == id[..|prefix|][0];
    assert IsLowerHexDigit(id[|id| - 1]);
    TrimUnpadded(id);
  }
}
