/**
 * Minecraft formatting codes: the section sign followed by one code
 * character, the two ways the plugin strips them from a line, and
 * Bukkit's translation of `&` codes into them.
 */
module ChatColors {
  import JavaText
  const COLOR_CHAR: char := '§'

  /**
   * A code character, in either case: 0-9, a-f, k-o and r; `withX` adds x,
   * which Bukkit's `ChatColor.stripColor` removes and
   * `SharpeningAnvilListener.stripColor` does not.
   */
  predicate IsCode(c: char, withX: bool) {
    ('0' <= c <= '9') || ('a' <= c <= 'f') || ('A' <= c <= 'F') || ('k' <= c <= 'o') || ('K' <= c <= 'O')
    || c == 'r' || c == 'R' || (withX && (c == 'x' || c == 'X'))
  }

  /** The prefix a `ChatColor` constant prints as. */
  function Color(code: char): string {
    [COLOR_CHAR, code]
  }

  const BLACK: string := Color('0')
  const DARK_PURPLE: string := Color('5')
  const GOLD: string := Color('6')
  const GRAY: string := Color('7')
  const DARK_GRAY: string := Color('8')
  const GREEN: string := Color('a')
  const AQUA: string := Color('b')
  const RED: string := Color('c')
  const LIGHT_PURPLE: string := Color('d')
  const YELLOW: string := Color('e')
  const ITALIC: string := Color('o')

  /**
   * `replaceAll` of the pattern "section sign, then a code character" by the
   * empty string, scanning left to right.
   */
  function Strip(s: string, withX: bool): (r: string)
    ensures |r| <= |s|
    decreases |s|
  {
    if |s| >= 2 && s[0] == COLOR_CHAR && IsCode(s[1], withX) then Strip(s[2..], withX)
    else if s == [] then []
    else [s[0]] + Strip(s[1..], withX)
  }

  /** `ChatColor.stripColor`. */
  function StripColor(s: string): string {
    Strip(s, true)
  }

  /** A line without a section sign is left as it is. */
  lemma {:induction false} StripPlain(s: string, withX: bool)
    requires COLOR_CHAR !in s
    ensures Strip(s, withX) == s
    decreases |s|
  {
    if s != [] {
      StripPlain(s[1..], withX);
      assert [s[0]] + s[1..] == s;
    }
  }

  /** Text without a section sign passes through; what follows is stripped on its own. */
  lemma {:induction false} StripPlainPrefix(a: string, b: string, withX: bool)
    requires COLOR_CHAR !in a
    ensures Strip(a + b, withX) == a + Strip(b, withX)
    decreases |a|
  {
    if a != [] {
      assert a[0] in a;
      assert (a + b)[0] == a[0] && (a + b)[1..] == a[1..] + b;
      assert COLOR_CHAR !in a[1..];
      StripPlainPrefix(a[1..], b, withX);
      assert [a[0]] + a[1..] == a;
    } else {
      assert a + b == b;
    }
  }

  /** A leading colour prefix is removed. */
  lemma StripColorPrefix(code: char, b: string, withX: bool)
    requires IsCode(code, withX)
    ensures Strip(Color(code) + b, withX) == Strip(b, withX)
  {
    assert (Color(code) + b)[2..] == b;
  }

  /**
   * `ChatColor.translateAlternateColorCodes(alt, text)`, a Bukkit call: every
   * `alt` followed by a code character (x included) becomes the section sign
   * followed by that code in lower case; everything else is kept.
   */
  function Translate(alt: char, s: string): (r: string)
    ensures |r| == |s|
    decreases |s|
  {
    if |s| >= 2 && s[0] == alt && IsCode(s[1], true) then [COLOR_CHAR, JavaText.LowerChar(s[1])] + Translate(alt, s[2..])
    else if s == [] then []
    else [s[0]] + Translate(alt, s[1..])
  }

  /** Text without the alternate code character is left as it is. */
  lemma {:induction false} TranslatePlain(alt: char, s: string)
    requires alt !in s
    ensures Translate(alt, s) == s
    decreases |s|
  {
    if s != [] {
      assert s[0] != alt;
      TranslatePlain(alt, s[1..]);
      assert [s[0]] + s[1..] == s;
    }
  }

  /** A translated `alt` code is the colour prefix of its lower-case code, and the rest is translated on its own. */
  lemma TranslateCode(alt: char, code: char, b: string)
    requires IsCode(code, true)
    ensures Translate(alt, [alt, code] + b) == Color(JavaText.LowerChar(code)) + Translate(alt, b)
  {
    assert ([alt, code] + b)[2..] == b;
  }
}
