/** Deterministic palette choice: a 32-bit wrapping string hash (`getProjectColor`,
    `getAvatarForUser`) reduced modulo the palette size. */
module Palette {

  import opened JsNumber
  import opened JsText

  /** One step of the hash, `31 * a + code` reduced to a signed 32-bit value. */
  function HashStep(a: int, c: char): (r: int)
    ensures IsInt32(r)
  {
    ToInt32(31 * a + c as int)
  }

  /** The step as the source writes it, `a = ((a << 5) - a) + code; return a & a`,
      with JavaScript's conversions spelled out: `<<` converts its left operand with
      ToInt32 and wraps the shifted value, `-` and `+` are exact on these magnitudes,
      and `a & a` converts the sum with ToInt32. */
  function JsHashStep(a: int, c: char): int {
    var shifted := ToInt32(ToInt32(a) * 32);
    ToInt32(shifted - a + c as int)
  }

  /** On every accumulator the hash can hold, the source's step is `HashStep`. */
  lemma JsHashStepIsHashStep(a: int, c: char)
    requires IsInt32(a)
    ensures JsHashStep(a, c) == HashStep(a, c)
  {
    ToInt32OfInt32(a);
    var p := a * 32;
    var shifted := ToInt32(p);
    assert (p - shifted) % TwoTo32 == 0;
    var k := (p - shifted) / TwoTo32;
    assert p - shifted == k * TwoTo32;
    assert (shifted - a + c as int) - (31 * a + c as int) == -k * TwoTo32;
    ModShift(0, -k);
    ToInt32Congruent(shifted - a + c as int, 31 * a + c as int);
  }

  /** The hash of a string: the steps folded over its characters from left to right,
      starting at 0. The accumulator is a signed 32-bit value after every character. */
  function Hash(s: string): (h: int)
    ensures IsInt32(h)
  {
    if s == [] then 0 else HashStep(Hash(s[..|s| - 1]), s[|s| - 1])
  }

  /** Reference definition: the polynomial hash with base 31, without wrap-around. */
  function PolynomialHash(s: string): int {
    if s == [] then 0 else 31 * PolynomialHash(s[..|s| - 1]) + s[|s| - 1] as int
  }

  /** Wrapping after every character gives the same value as wrapping the polynomial
      hash once at the end. */
  lemma {:induction false} HashIsWrappedPolynomial(s: string)
    ensures Hash(s) == ToInt32(PolynomialHash(s))
  {
    if s != [] {
      var p := s[..|s| - 1];
      var c := s[|s| - 1] as int;
      HashIsWrappedPolynomial(p);
      var x := PolynomialHash(p);
      assert (x - Hash(p)) % TwoTo32 == 0;
      var k := (x - Hash(p)) / TwoTo32;
      assert x - Hash(p) == k * TwoTo32;
      assert (31 * x + c) - (31 * Hash(p) + c) == (31 * k) * TwoTo32;
      ModShift(0, 31 * k);
      ToInt32Congruent(31 * x + c, 31 * Hash(p) + c);
    }
  }

  /** `Math.abs(hash) % size`: a position in a palette of `size` entries. */
  function PaletteIndex(key: string, size: nat): (i: nat)
    requires size > 0
    ensures i < size
  {
    Abs(Hash(key)) % size
  }

  const ProjectColors: seq<string> := [
    "bg-purple-600", "bg-blue-600", "bg-green-600", "bg-red-600",
    "bg-yellow-600", "bg-indigo-600", "bg-pink-600", "bg-teal-600",
    "bg-orange-600", "bg-cyan-600", "bg-lime-600", "bg-violet-600"]

  /** The string that `getProjectColor(project.id || index)` hashes: the project id
      when it is not empty, else the decimal rendering of the project's position. */
  function ColorKey(projectId: string, index: nat): (key: string)
    ensures projectId != "" ==> key == projectId
    ensures projectId == "" ==> key == NatToDecimal(index)
  {
    if projectId != "" then projectId else NatToDecimal(index)
  }

  /** The colour class of a project: one of the twelve palette entries, at the
      position the hash of its key selects. */
  function ProjectColor(key: string): (color: string)
    ensures color in ProjectColors
  {
    ProjectColors[PaletteIndex(key, |ProjectColors|)]
  }

  const Avatars: seq<string> := [
    "\U{1F468}\U{200D}\U{1F4BB}", "\U{1F469}\U{200D}\U{1F4BB}",
    "\U{1F468}\U{200D}\U{1F52C}", "\U{1F469}\U{200D}\U{1F52C}",
    "\U{1F468}\U{200D}\U{1F4BC}", "\U{1F469}\U{200D}\U{1F4BC}",
    "\U{1F468}\U{200D}\U{1F3A8}", "\U{1F469}\U{200D}\U{1F3A8}"]

  /** The glyph shown for a user without a usable name. */
  const NoNameAvatar: string := "\U{1F464}"

  /** `${firstName || ''} ${lastName || ''}`.trim(): the name the avatar and the
      display name are derived from. */
  function FullName(firstName: string, lastName: string): (name: string)
    ensures |name| <= |firstName| + 1 + |lastName|
    ensures name == [] <==> IsBlank(firstName) && IsBlank(lastName)
    ensures IsBlank(firstName) ==> name == Trim(lastName)
    ensures IsBlank(lastName) ==> name == Trim(firstName)
    ensures !IsBlank(firstName) && !IsBlank(lastName) ==>
      name == firstName[LeadingWhitespace(firstName)..] + " " +
        lastName[..|lastName| - TrailingWhitespace(lastName)]
  {
    var joined := firstName + " " + lastName;
    TrimJoin(firstName, lastName);
    assert IsBlank(joined) <==> IsBlank(firstName) && IsBlank(lastName) by {
      assert forall i :: 0 <= i < |firstName| ==> joined[i] == firstName[i];
      assert forall i :: 0 <= i < |lastName| ==> joined[|firstName| + 1 + i] == lastName[i];
    }
    Trim(joined)
  }

  /** `getAvatarForUser`: a blank name gives the generic glyph; any other name gives
      the palette entry its hash selects. */
  function AvatarFor(firstName: string, lastName: string): (glyph: string)
    ensures FullName(firstName, lastName) == [] ==> glyph == NoNameAvatar
    ensures FullName(firstName, lastName) != [] ==>
      glyph == Avatars[PaletteIndex(FullName(firstName, lastName), 8)]
  {
    var name := FullName(firstName, lastName);
    if |name| > 0 then Avatars[PaletteIndex(name, |Avatars|)] else NoNameAvatar
  }

  /** The avatar depends on the trimmed name alone: two users whose names trim to
      the same text get the same glyph however their fields differ. */
  lemma AvatarDependsOnlyOnName(f1: string, l1: string, f2: string, l2: string)
    requires FullName(f1, l1) == FullName(f2, l2)
    ensures AvatarFor(f1, l1) == AvatarFor(f2, l2)
  {
  }

  /** A non-blank name never gets the generic glyph. */
  lemma NamedUserHasPersonalAvatar(firstName: string, lastName: string)
    requires !IsBlank(firstName) || !IsBlank(lastName)
    ensures AvatarFor(firstName, lastName) in Avatars
    ensures AvatarFor(firstName, lastName) != NoNameAvatar
  {
    var i := PaletteIndex(FullName(firstName, lastName), 8);
    assert Avatars[i] != NoNameAvatar;
  }
}
