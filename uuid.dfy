/** The fallback identifier generator of `getUUID`: every `x` of the
    template is replaced by one random nibble and every `y` by
    `(r & 0x3) | 0x8`, each written as one lower-case hexadecimal digit.
    The random nibbles are an input sequence, one per placeholder, in the
    order the placeholders appear. */
module Uuid {
  import opened Hex

  const Template := "xxxxxxxx-xxxx-4xxx-yxxx-xxxxxxxxxxxx"

  /** The characters the pattern `/[xy]/g` replaces. */
  predicate IsSlot(c: char)
  {
    c == 'x' || c == 'y'
  }

  /** The number of placeholders in a template, i.e. the random draws it needs. */
  function Slots(t: string): nat
  {
    if t == [] then 0 else (if IsSlot(t[0]) then 1 else 0) + Slots(t[1..])
  }

  /** Every draw is a value of `(Math.random() * 16) | 0`, i.e. in [0, 16). */
  predicate Nibbles(draws: seq<nat>)
  {
    forall i | 0 <= i < |draws| :: draws[i] < 16
  }

  /** `(r & 0x3) | 0x8`: keeps the two low bits of the draw and sets the
      high bit, so the result is one of 8, 9, 10, 11. */
  function VariantNibble(r: nat): (v: nat)
    requires r < 16
    ensures 8 <= v < 12
    ensures v == 8 + r % 4
  {
    ((r as bv8 & 0x3) | 0x8) as nat
  }

  /** The digit the callback returns for placeholder `c` and draw `r`. */
  function SlotDigit(c: char, r: nat): char
    requires IsSlot(c) && r < 16
  {
    HexDigit(if c == 'x' then r else VariantNibble(r))
  }

  /** `s` has the shape `t` promises: placeholders `x` became hexadecimal
      digits, placeholders `y` one of 8, 9, a, b, everything else is kept. */
  predicate Matches(t: string, s: string)
  {
    |s| == |t| &&
    forall i | 0 <= i < |t| ::
      if t[i] == 'x' then IsLowerHex(s[i])
      else if t[i] == 'y' then s[i] in "89ab"
      else s[i] == t[i]
  }

  /** `t.replace(/[xy]/g, c => ...)` with the given draws. */
  function Fill(t: string, draws: seq<nat>): (s: string)
    requires |draws| == Slots(t) && Nibbles(draws)
    ensures Matches(t, s)
  {
    if t == [] then []
    else if IsSlot(t[0]) then [SlotDigit(t[0], draws[0])] + Fill(t[1..], draws[1..])
    else [t[0]] + Fill(t[1..], draws)
  }

  /** Reads the draws back out of a filled template; a `y` digit gives the
      two low bits of its draw. */
  function Decode(t: string, s: string): (draws: seq<nat>)
    requires Matches(t, s)
    ensures |draws| == Slots(t) && Nibbles(draws)
  {
    if t == [] then []
    else
      assert Matches(t[1..], s[1..]) by {
        forall i | 0 <= i < |t| - 1 ensures t[1..][i] == t[i + 1] && s[1..][i] == s[i + 1] { }
      }
      if t[0] == 'x' then [HexValue(s[0])] + Decode(t[1..], s[1..])
      else if t[0] == 'y' then [HexValue(s[0]) - 8] + Decode(t[1..], s[1..])
      else Decode(t[1..], s[1..])
  }

  /** The draws as far as Fill can see them: a `y` draw only by its two low bits. */
  function Visible(t: string, draws: seq<nat>): (v: seq<nat>)
    requires |draws| == Slots(t) && Nibbles(draws)
    ensures |v| == |draws| && Nibbles(v)
  {
    if t == [] then []
    else if t[0] == 'x' then [draws[0]] + Visible(t[1..], draws[1..])
    else if t[0] == 'y' then [draws[0] % 4] + Visible(t[1..], draws[1..])
    else Visible(t[1..], draws)
  }

  /** Every string of the template's shape is produced by some draws: its own. */
  lemma {:induction false} FillDecode(t: string, s: string)
    requires Matches(t, s)
    ensures Fill(t, Decode(t, s)) == s
  {
    if t != [] {
      assert Matches(t[1..], s[1..]) by {
        forall i | 0 <= i < |t| - 1 ensures t[1..][i] == t[i + 1] && s[1..][i] == s[i + 1] { }
      }
      FillDecode(t[1..], s[1..]);
      assert s == [s[0]] + s[1..];
      if t[0] == 'y' {
        assert s[0] in "89ab";
        var v := HexValue(s[0]);
        assert VariantNibble(v - 8) == v;
      }
    }
  }

  /** Fill keeps every draw it can: the draws read back are the visible ones. */
  lemma {:induction false} DecodeFill(t: string, draws: seq<nat>)
    requires |draws| == Slots(t) && Nibbles(draws)
    ensures Decode(t, Fill(t, draws)) == Visible(t, draws)
  {
    if t != [] {
      var s := Fill(t, draws);
      if IsSlot(t[0]) {
        assert s[1..] == Fill(t[1..], draws[1..]);
        DecodeFill(t[1..], draws[1..]);
        HexValueOfDigit(draws[0]);
        HexValueOfDigit(VariantNibble(draws[0]));
      } else {
        assert s[1..] == Fill(t[1..], draws);
        DecodeFill(t[1..], draws);
      }
    }
  }

  /** Two sets of draws give the same identifier exactly when they agree
      on every `x` draw and on the two low bits of every `y` draw. */
  lemma FillInjective(t: string, d1: seq<nat>, d2: seq<nat>)
    requires |d1| == Slots(t) && Nibbles(d1)
    requires |d2| == Slots(t) && Nibbles(d2)
    ensures Fill(t, d1) == Fill(t, d2) <==> Visible(t, d1) == Visible(t, d2)
  {
    DecodeFill(t, d1);
    DecodeFill(t, d2);
    FillDecode(t, Fill(t, d1));
    FillDecode(t, Fill(t, d2));
  }

  lemma {:induction false} SlotsConcat(a: string, b: string)
    ensures Slots(a + b) == Slots(a) + Slots(b)
  {
    if a == [] {
      assert a + b == b;
    } else {
      assert (a + b)[1..] == a[1..] + b;
      SlotsConcat(a[1..], b);
    }
  }

  lemma TemplatePieces()
    ensures Template == "xxxxxxxx-" + "xxxx-4xxx-" + "yxxx-" + "xxxxxx" + "xxxxxx"
  {
  }

  lemma SlotsOfFirstGroup() ensures Slots("xxxxxxxx-") == 8 { }
  lemma SlotsOfMiddleGroups() ensures Slots("xxxx-4xxx-") == 7 { }
  lemma SlotsOfVariantGroup() ensures Slots("yxxx-") == 4 { }
  lemma SlotsOfHalfLastGroup() ensures Slots("xxxxxx") == 6 { }

  /** The template has 31 placeholders, so the generator draws 31 times. */
  lemma TemplateSlots()
    ensures Slots(Template) == 31
  {
    TemplatePieces();
    SlotsOfFirstGroup();
    SlotsOfMiddleGroups();
    SlotsOfVariantGroup();
    SlotsOfHalfLastGroup();
    var a, b, c, d := "xxxxxxxx-", "xxxx-4xxx-", "yxxx-", "xxxxxx";
    SlotsConcat(a, b);
    SlotsConcat(a + b, c);
    SlotsConcat(a + b + c, d);
    SlotsConcat(a + b + c + d, d);
  }

  /** The layout of a version-4 UUID in the form of section 4.4 of RFC 4122,
      written lower-case: 36 characters, hyphens at 8, 13, 18 and 23, the
      version nibble 4 at 14, the variant nibble (binary 10xx) at 19, and a
      hexadecimal digit everywhere else. */
  predicate IsV4Shaped(s: string)
  {
    |s| == 36 &&
    forall i | 0 <= i < 36 ::
      if i == 8 || i == 13 || i == 18 || i == 23 then s[i] == '-'
      else if i == 14 then s[i] == '4'
      else if i == 19 then s[i] in "89ab"
      else IsLowerHex(s[i])
  }

  lemma TemplateAt(i: nat)
    requires i < 36
    ensures Template[i] ==
      if i == 8 || i == 13 || i == 18 || i == 23 then '-'
      else if i == 14 then '4'
      else if i == 19 then 'y'
      else 'x'
  {
  }

  /** The strings of the template's shape are exactly the version-4 layouts. */
  lemma TemplateShapeIsV4(s: string)
    ensures Matches(Template, s) <==> IsV4Shaped(s)
  {
    forall i | 0 <= i < 36 {
      TemplateAt(i);
    }
  }

  /** The fallback branch of `getUUID`, fed with its 31 draws. */
  function FallbackUuid(draws: seq<nat>): (id: string)
    requires |draws| == 31 && Nibbles(draws)
    ensures IsV4Shaped(id)
    ensures |id| == 36
    ensures id[8] == '-' && id[13] == '-' && id[18] == '-' && id[23] == '-'
    ensures id[14] == '4'
    ensures id[19] in "89ab"
  {
    TemplateSlots();
    var id := Fill(Template, draws);
    TemplateShapeIsV4(id);
    id
  }

  /** Every version-4 layout is an identifier the fallback can return. */
  lemma FallbackCoversV4(s: string)
    requires IsV4Shaped(s)
    ensures |Decode(Template, s)| == 31 && Nibbles(Decode(Template, s))
    ensures FallbackUuid(Decode(Template, s)) == s
  {
    TemplateShapeIsV4(s);
    TemplateSlots();
    FillDecode(Template, s);
  }

  /** The fallback identifier determines the 30 `x` draws and the two low
      bits of the `y` draw, and nothing more. */
  lemma FallbackDeterminesDraws(d1: seq<nat>, d2: seq<nat>)
    requires |d1| == 31 && Nibbles(d1)
    requires |d2| == 31 && Nibbles(d2)
    ensures Slots(Template) == 31
    ensures FallbackUuid(d1) == FallbackUuid(d2) <==> Visible(Template, d1) == Visible(Template, d2)
  {
    TemplateSlots();
    FillInjective(Template, d1, d2);
  }
}
