/**
 * The two pieces of Go's standard library whose exact behaviour the plugin
 * dispatcher depends on:
 *  - `filepath.SplitList` on a Unix host, which cuts the plugin search path at
 *    every ':' (and yields no directory at all for the empty string);
 *  - the `%q` verb of `fmt` (strconv.Quote), which the dispatcher uses to put a
 *    plugin's name inside its default help text and its exit error message.
 */
module GoText {
  import opened Wrappers

  /** The list separator of a Unix host. */
  const ListSeparator: char := ':'

  /** strings.Split(s, ":"): the pieces between separators; never empty. */
  function Split(s: string): (parts: seq<string>)
    ensures |parts| >= 1
    ensures forall i :: 0 <= i < |parts| ==> ListSeparator !in parts[i]
    decreases |s|
  {
    if s == [] then [[]]
    else
      var rest := Split(s[1..]);
      if s[0] == ListSeparator then [[]] + rest
      else [[s[0]] + rest[0]] + rest[1..]
  }

  /** strings.Join(parts, ":"). */
  function Join(parts: seq<string>): string
  {
    if parts == [] then []
    else if |parts| == 1 then parts[0]
    else parts[0] + [ListSeparator] + Join(parts[1..])
  }

  /** filepath.SplitList: the empty path holds no directory, any other path is split at ':'. */
  function SplitList(path: string): (dirs: seq<string>)
    ensures path == [] <==> dirs == []
    ensures forall i :: 0 <= i < |dirs| ==> ListSeparator !in dirs[i]
  {
    if path == [] then [] else Split(path)
  }

  lemma {:induction false} JoinSplit(s: string)
    ensures Join(Split(s)) == s
    decreases |s|
  {
    if s != [] {
      var rest := Split(s[1..]);
      JoinSplit(s[1..]);
      if s[0] == ListSeparator {
        assert ([[]] + rest)[1..] == rest;
      } else if |rest| == 1 {
        assert s == [s[0]] + s[1..];
      } else {
        var parts := [[s[0]] + rest[0]] + rest[1..];
        assert parts[1..] == rest[1..];
        assert Join(rest) == rest[0] + [ListSeparator] + Join(rest[1..]);
        assert s == [s[0]] + s[1..];
      }
    }
  }

  /** Joining the directories of a search path with ':' gives the path back. */
  lemma SplitListRoundTrip(path: string)
    ensures Join(SplitList(path)) == path
  {
    if path != [] {
      JoinSplit(path);
    }
  }

  /** The letter strconv.Quote writes after a backslash for a character it escapes. */
  function EscapeCode(c: char): Option<char>
  {
    match c
    case '\U{7}' => Some('a')
    case '\U{8}' => Some('b')
    case '\U{C}' => Some('f')
    case '\n' => Some('n')
    case '\r' => Some('r')
    case '\t' => Some('t')
    case '\U{B}' => Some('v')
    case '\\' => Some('\\')
    case '"' => Some('"')
    case _ => None
  }

  /** The character an escape letter stands for inside a quoted string. */
  function UnescapeCode(l: char): Option<char>
  {
    match l
    case 'a' => Some('\U{7}')
    case 'b' => Some('\U{8}')
    case 'f' => Some('\U{C}')
    case 'n' => Some('\n')
    case 'r' => Some('\r')
    case 't' => Some('\t')
    case 'v' => Some('\U{B}')
    case '\\' => Some('\\')
    case '"' => Some('"')
    case _ => None
  }

  function EscapeChar(c: char): string
  {
    match EscapeCode(c)
    case Some(l) => ['\\', l]
    case None => [c]
  }

  function Escape(s: string): string
  {
    if s == [] then [] else EscapeChar(s[0]) + Escape(s[1..])
  }

  /** fmt.Sprintf("%q", s): s between double quotes, with its special characters escaped. */
  function Quote(s: string): (q: string)
    ensures |q| >= 2 && q[0] == '"' && q[|q| - 1] == '"'
  {
    ['"'] + Escape(s) + ['"']
  }

  /** Reads back the body of a quoted string; None when it is not well formed. */
  function Unescape(t: string): Option<string>
    decreases |t|
  {
    if t == [] then Some([])
    else if t[0] == '\\' then
      if |t| < 2 then None
      else match (UnescapeCode(t[1]), Unescape(t[2..]))
        case (Some(c), Some(rest)) => Some([c] + rest)
        case _ => None
    else if t[0] == '"' then None
    else match Unescape(t[1..])
      case Some(rest) => Some([t[0]] + rest)
      case None => None
  }

  /** strconv.Unquote restricted to the escapes that Quote produces. */
  function Unquote(q: string): Option<string>
  {
    if |q| >= 2 && q[0] == '"' && q[|q| - 1] == '"' then Unescape(q[1..|q| - 1]) else None
  }

  /** Every escape letter reads back as the character it escapes; unescaped characters are neither '\\' nor '"'. */
  lemma EscapeCodeRoundTrip(c: char)
    ensures EscapeCode(c).Some? ==> UnescapeCode(EscapeCode(c).value) == Some(c)
    ensures EscapeCode(c).None? ==> c != '\\' && c != '"'
  {
  }

  /** Reading back one escaped character in front of any text. */
  lemma UnescapeStep(c: char, t: string)
    ensures Unescape(EscapeChar(c) + t) == match Unescape(t)
      case Some(rest) => Some([c] + rest)
      case None => None
  {
    var u := EscapeChar(c) + t;
    EscapeCodeRoundTrip(c);
    if EscapeCode(c).Some? {
      var l := EscapeCode(c).value;
      assert u == ['\\', l] + t;
      assert u[0] == '\\' && u[1] == l && u[2..] == t;
    } else {
      assert u == [c] + t;
      assert u[0] == c && u[1..] == t;
    }
  }

  lemma {:induction false} UnescapeEscape(s: string)
    ensures Unescape(Escape(s)) == Some(s)
  {
    if s != [] {
      UnescapeEscape(s[1..]);
      UnescapeStep(s[0], Escape(s[1..]));
      assert s == [s[0]] + s[1..];
    }
  }

  /** Quoting loses nothing: the quoted text reads back as the original string. */
  lemma UnquoteQuote(s: string)
    ensures Unquote(Quote(s)) == Some(s)
  {
    var q := Quote(s);
    assert q[1..|q| - 1] == Escape(s);
    UnescapeEscape(s);
  }

  /** Two strings with the same quoted form are the same string. */
  lemma QuoteInjective(a: string, b: string)
    requires Quote(a) == Quote(b)
    ensures a == b
  {
    UnquoteQuote(a);
    UnquoteQuote(b);
  }

  /** A string with no character that needs escaping is quoted verbatim. */
  lemma {:induction false} QuotePlain(s: string)
    requires forall i :: 0 <= i < |s| ==> EscapeCode(s[i]).None?
    ensures Quote(s) == ['"'] + s + ['"']
  {
    EscapePlain(s);
  }

  lemma {:induction false} EscapePlain(s: string)
    requires forall i :: 0 <= i < |s| ==> EscapeCode(s[i]).None?
    ensures Escape(s) == s
  {
    if s != [] {
      assert EscapeCode(s[0]).None?;
      EscapePlain(s[1..]);
      assert s == [s[0]] + s[1..];
    }
  }
}
