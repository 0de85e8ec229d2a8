/** Escaping a value for a double-quoted shell word (clients/rixi_client.py), and how the shell reads it
    (section 2.2.3 of the POSIX.1-2017 Shell Command Language). */
module ShellEscape {

  // ---- the escaping ---------------------------------------------------------------------------------

  /** s.replace(c, sub), for a single character */
  function Replace(s: string, c: char, sub: string): string
    decreases |s|
  {
    if s == "" then "" else (if s[0] == c then sub else [s[0]]) + Replace(s[1..], c, sub)
  }

  /** The four replacements, one after the other. */
  function Escaped(value: string): string {
    Replace(Replace(Replace(Replace(value, '\\', "\\\\"), '"', "\\\""), '$', "\\$"), '`', "\\`")
  }

  predicate Special(c: char) {
    c == '\\' || c == '"' || c == '$' || c == '`'
  }

  /** Each special character behind a backslash, in one pass. */
  function OnePass(value: string): string
    decreases |value|
  {
    if value == "" then "" else (if Special(value[0]) then ['\\', value[0]] else [value[0]]) + OnePass(value[1..])
  }

  lemma {:induction false} ReplaceOfBoth(a: string, b: string, c: char, sub: string)
    ensures Replace(a + b, c, sub) == Replace(a, c, sub) + Replace(b, c, sub)
    decreases |a|
  {
    if a == "" {
      assert a + b == b;
    } else {
      assert (a + b)[1..] == a[1..] + b;
      ReplaceOfBoth(a[1..], b, c, sub);
    }
  }

  lemma ReplaceOne(d: char, c: char, sub: string)
    ensures Replace([d], c, sub) == if d == c then sub else [d]
  {
  }

  lemma ReplaceTwo(a: char, b: char, c: char, sub: string)
    requires a != c
    ensures Replace([a, b], c, sub) == [a] + if b == c then sub else [b]
  {
    assert [a, b] == [a] + [b];
    ReplaceOfBoth([a], [b], c, sub);
    ReplaceOne(a, c, sub);
    ReplaceOne(b, c, sub);
  }

  lemma EscapedOfBoth(a: string, b: string)
    ensures Escaped(a + b) == Escaped(a) + Escaped(b)
  {
    ReplaceOfBoth(a, b, '\\', "\\\\");
    var a1, b1 := Replace(a, '\\', "\\\\"), Replace(b, '\\', "\\\\");
    ReplaceOfBoth(a1, b1, '"', "\\\"");
    var a2, b2 := Replace(a1, '"', "\\\""), Replace(b1, '"', "\\\"");
    ReplaceOfBoth(a2, b2, '$', "\\$");
    var a3, b3 := Replace(a2, '$', "\\$"), Replace(b2, '$', "\\$");
    ReplaceOfBoth(a3, b3, '`', "\\`");
  }

  lemma EscapedOne(c: char)
    ensures Escaped([c]) == if Special(c) then ['\\', c] else [c]
  {
    ReplaceOne(c, '\\', "\\\\");
    ReplaceOne(c, '"', "\\\"");
    ReplaceOne(c, '$', "\\$");
    ReplaceOne(c, '`', "\\`");
    ReplaceTwo('\\', '\\', '"', "\\\"");
    ReplaceTwo('\\', '\\', '$', "\\$");
    ReplaceTwo('\\', '\\', '`', "\\`");
    ReplaceTwo('\\', '"', '$', "\\$");
    ReplaceTwo('\\', '"', '`', "\\`");
    ReplaceTwo('\\', '$', '`', "\\`");
  }

  /** The replacements do not get in each other's way. */
  lemma {:induction false} EscapedIsOnePass(value: string)
    ensures Escaped(value) == OnePass(value)
    decreases |value|
  {
    if value != "" {
      assert value == [value[0]] + value[1..];
      EscapedOfBoth([value[0]], value[1..]);
      EscapedOne(value[0]);
      EscapedIsOnePass(value[1..]);
    }
  }

  // ---- the shell's reading -----------------------------------------------------------------------------

  /** What the shell makes of the text after an opening double quote: a word and what follows its
      closing quote; an expansion it would carry out; or no closing quote. */
  datatype Reading = Word(value: string, rest: string) | Expands | Unclosed

  function Prefixed(c: string, r: Reading): Reading {
    if r.Word? then Word(c + r.value, r.rest) else r
  }

  /** Inside double quotes $ and ` expand, " closes, and a backslash quotes the next character if that is
      one of $ ` " \ (it removes a newline), and stands for itself otherwise. */
  function Read(s: string): Reading
    decreases |s|
  {
    if s == "" then Unclosed
    else if s[0] == '"' then Word("", s[1..])
    else if s[0] == '$' || s[0] == '`' then Expands
    else if s[0] == '\\' && |s| >= 2 && Special(s[1]) then Prefixed([s[1]], Read(s[2..]))
    else if s[0] == '\\' && |s| >= 2 && s[1] == '\n' then Read(s[2..])
    else Prefixed([s[0]], Read(s[1..]))
  }

  lemma ReadOne(c: char, tail: string)
    ensures Read((if Special(c) then ['\\', c] else [c]) + tail) == Prefixed([c], Read(tail))
  {
    if Special(c) {
      assert (['\\', c] + tail)[2..] == tail;
    } else {
      assert ([c] + tail)[1..] == tail;
    }
  }

  lemma {:induction false} ReadPlain(a: string, tail: string)
    requires forall c :: c in a ==> !Special(c)
    ensures Read(a + tail) == Prefixed(a, Read(tail))
    decreases |a|
  {
    if a == "" {
      assert a + tail == tail;
      PrefixedNothing(Read(tail));
    } else {
      assert a + tail == [a[0]] + (a[1..] + tail);
      ReadOne(a[0], a[1..] + tail);
      ReadPlain(a[1..], tail);
      PrefixedBoth(a, Read(tail));
    }
  }

  lemma ReadAfterPlain(a: string, q: string, rest: string)
    requires forall c :: c in a ==> !Special(c)
    ensures Read(a + q + rest) == Prefixed(a, Read(q + rest))
  {
    assert a + q + rest == a + (q + rest);
    ReadPlain(a, q + rest);
  }

  /** What the characters do that are escaped. */
  lemma SpecialsAreRead(rest: string)
    ensures Read("$" + rest) == Expands && Read("`" + rest) == Expands
    ensures Read("\"" + rest) == Word("", rest)
    ensures Read("\\\n" + rest) == Read(rest)
  {
    assert ("\"" + rest)[1..] == rest;
    assert ("\\\n" + rest)[2..] == rest;
  }

  /** Why each is escaped: in a value put between the quotes as it is, the first $ or ` expands, the first " ends the
      word, and a backslash goes with a line feed after it. */
  lemma UnescapedIsMisread(a: string, rest: string)
    requires forall c :: c in a ==> !Special(c)
    ensures Read(a + "$" + rest) == Expands && Read(a + "`" + rest) == Expands
    ensures Read(a + "\"" + rest) == Word(a, rest)
    ensures Read(a + "\\\n" + rest) == Prefixed(a, Read(rest))
  {
    ReadAfterPlain(a, "$", rest);
    ReadAfterPlain(a, "`", rest);
    ReadAfterPlain(a, "\"", rest);
    ReadAfterPlain(a, "\\\n", rest);
    SpecialsAreRead(rest);
    assert a + "" == a;
  }

  lemma {:induction false} ReadInvertsOnePass(value: string, tail: string)
    ensures Read(OnePass(value) + tail) == Prefixed(value, Read(tail))
    decreases |value|
  {
    if value == "" {
      assert OnePass(value) + tail == tail;
      PrefixedNothing(Read(tail));
    } else {
      var head := if Special(value[0]) then ['\\', value[0]] else [value[0]];
      assert OnePass(value) + tail == head + (OnePass(value[1..]) + tail);
      ReadOne(value[0], OnePass(value[1..]) + tail);
      ReadInvertsOnePass(value[1..], tail);
      PrefixedBoth(value, Read(tail));
    }
  }

  lemma PrefixedNothing(r: Reading)
    ensures Prefixed("", r) == r
  {
    if r.Word? {
      assert "" + r.value == r.value;
    }
  }

  lemma PrefixedBoth(value: string, r: Reading)
    requires value != ""
    ensures Prefixed([value[0]], Prefixed(value[1..], r)) == Prefixed(value, r)
  {
    if r.Word? {
      assert [value[0]] + (value[1..] + r.value) == value + r.value;
    }
  }

  /** The shell reads an escaped value, in quotes, as that value and nothing more: no expansion, no early
      closing quote, and what follows is untouched. */
  lemma ReadInvertsEscape(value: string, rest: string)
    ensures Read(Escaped(value) + "\"" + rest) == Word(value, rest)
  {
    EscapedIsOnePass(value);
    ReadInvertsOnePass(value, "\"" + rest);
    assert OnePass(value) + "\"" + rest == OnePass(value) + ("\"" + rest);
    assert ("\"" + rest)[1..] == rest;
    assert value + "" == value;
  }
}
