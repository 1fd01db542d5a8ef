/** The transcript's fix for assistant replies: Markdown joins lines that
    end in a bare newline, so every newline is rendered as a hard line
    break, two spaces followed by the newline. */
module Display {

  /** What one character of the reply becomes on screen. */
  function Chunk(c: char): string
  {
    if c == '\n' then "  \n" else [c]
  }

  function NewlineCount(s: string): nat
  {
    if s == "" then 0 else (if s[0] == '\n' then 1 else 0) + NewlineCount(s[1..])
  }

  /** The character-by-character rewrite: each newline grows by two
      spaces, every other character stays where it was. */
  function FixNewlines(s: string): (r: string)
    ensures |r| == |s| + 2 * NewlineCount(s)
    ensures NewlineCount(s) == 0 <==> r == s
  {
    if s == "" then "" else Chunk(s[0]) + FixNewlines(s[1..])
  }

  /** A reply has no newline to rewrite exactly when its newline count is 0. */
  lemma {:induction false} NewlineCountZero(s: string)
    ensures NewlineCount(s) == 0 <==> '\n' !in s
  {
    if s != "" {
      NewlineCountZero(s[1..]);
      assert s == [s[0]] + s[1..];
    }
  }

  /** Reads a rewritten reply back: each "  \n" is one original newline,
      any other character is itself. */
  function UnfixNewlines(r: string): (s: string)
    decreases |r|
  {
    if r == "" then ""
    else if |r| >= 3 && r[..3] == "  \n" then "\n" + UnfixNewlines(r[3..])
    else [r[0]] + UnfixNewlines(r[1..])
  }

  /** A rewritten, non-empty reply never starts with a newline, nor with
      a space directly followed by a newline. */
  lemma FixedHead(s: string)
    requires s != ""
    ensures |FixNewlines(s)| >= 1 && FixNewlines(s)[0] != '\n'
    ensures !(|FixNewlines(s)| >= 2 && FixNewlines(s)[0] == ' ' && FixNewlines(s)[1] == '\n')
  {
    var r := FixNewlines(s);
    assert r == Chunk(s[0]) + FixNewlines(s[1..]);
    if s[0] == ' ' && |s| >= 2 {
      var t := FixNewlines(s[1..]);
      assert r[1] == t[0];
      assert t == Chunk(s[1..][0]) + FixNewlines(s[2..]);
    }
  }

  /** The rewrite loses nothing: the original reply can be read back. */
  lemma {:induction false} UnfixFixNewlines(s: string)
    ensures UnfixNewlines(FixNewlines(s)) == s
  {
    if s != "" {
      var r := FixNewlines(s);
      var rest := FixNewlines(s[1..]);
      assert r == Chunk(s[0]) + rest;
      UnfixFixNewlines(s[1..]);
      if s[0] == '\n' {
        assert r[..3] == "  \n" && r[3..] == rest;
      } else {
        assert r[1..] == rest;
        if |rest| >= 2 {
          FixedHead(s[1..]);
        }
        assert !(|r| >= 3 && r[..3] == "  \n");
      }
      assert s == [s[0]] + s[1..];
    }
  }

  /** The rewrite works one character at a time, so it commutes with
      splitting the reply anywhere. */
  lemma {:induction false} FixNewlinesAppend(a: string, b: string)
    ensures FixNewlines(a + b) == FixNewlines(a) + FixNewlines(b)
  {
    if a == "" {
      assert a + b == b;
    } else {
      var ab := a + b;
      assert ab[0] == a[0] && ab[1..] == a[1..] + b;
      FixNewlinesAppend(a[1..], b);
      calc {
        FixNewlines(ab);
        Chunk(a[0]) + FixNewlines(a[1..] + b);
        Chunk(a[0]) + (FixNewlines(a[1..]) + FixNewlines(b));
        (Chunk(a[0]) + FixNewlines(a[1..])) + FixNewlines(b);
        FixNewlines(a) + FixNewlines(b);
      }
    }
  }
}
