/** Python values, exceptions and the str methods the audit engine relies on,
    restricted to what the engine uses. Case mapping and whitespace are those of
    ASCII; Python's full Unicode tables are not modelled. */
module Py {

  datatype Option<+T> = None | Some(value: T) {
    function GetOr(default: T): T {
      match this
      case Some(v) => v
      case None => default
    }
  }

  /** The classes of exception that the engine distinguishes or produces. */
  datatype ExceptionKind =
    | FileNotFoundError
    | ConnectionError
    | SSHException
    | AttributeError
    | IndexError
    | TypeError
    | ValueError
    | SyntaxError
    | KeyError
    | ModuleNotFoundError
    | OtherError

  /** A raised exception; `message` is what `str(e)` gives. */
  datatype Exception = Exception(kind: ExceptionKind, message: string)

  /** The outcome of a Python call that either returns or raises. */
  datatype Result<+T> = Ok(value: T) | Raised(exc: Exception)

  /** Python values as they appear in task parameters and evidence trees. */
  datatype PyValue =
    | PNone
    | PBool(b: bool)
    | PInt(i: int)
    | PStr(s: string)
    | PList(items: seq<PyValue>)
    | PDict(entries: map<string, PyValue>)

  /** A list of Python strings. */
  function Strs(ss: seq<string>): (vs: seq<PyValue>)
    ensures |vs| == |ss| && forall i :: 0 <= i < |ss| ==> vs[i] == PStr(ss[i])
  {
    seq(|ss|, i requires 0 <= i < |ss| => PStr(ss[i]))
  }

  lemma StrsAppend(a: seq<string>, b: seq<string>)
    ensures Strs(a + b) == Strs(a) + Strs(b)
  {
    var l, r := Strs(a + b), Strs(a) + Strs(b);
    forall i | 0 <= i < |l|
      ensures l[i] == r[i]
    {
      if i >= |a| {
        assert (a + b)[i] == b[i - |a|];
      }
    }
  }

  lemma StrsCons3(a: string, b: string, c: string, rest: seq<string>)
    ensures Strs([a, b, c] + rest) == [PStr(a), PStr(b), PStr(c)] + Strs(rest)
  {
    StrsAppend([a, b, c], rest);
    var h := Strs([a, b, c]);
    assert h[0] == PStr(a) && h[1] == PStr(b) && h[2] == PStr(c);
    assert h == [PStr(a), PStr(b), PStr(c)];
  }

  /** Python truthiness. */
  predicate Truthy(v: PyValue) {
    match v
    case PNone => false
    case PBool(b) => b
    case PInt(i) => i != 0
    case PStr(s) => s != ""
    case PList(items) => items != []
    case PDict(entries) => entries != map[]
  }

  /** Truthiness of a value that is either absent (None) or a string. */
  predicate TextTruthy(o: Option<string>) {
    o.Some? && o.value != ""
  }

  // ---------------------------------------------------------------------------
  // Characters

  predicate IsSpace(c: char) {
    c == ' ' || c == '\t' || c == '\n' || c == '\r' || c == '\U{000B}' || c == '\U{000C}'
    || ('\U{001C}' <= c <= '\U{001F}')
  }

  function LowerChar(c: char): (d: char)
    ensures 'A' <= c <= 'Z' ==> d as int == c as int + 32
    ensures !('A' <= c <= 'Z') ==> d == c
  {
    if 'A' <= c <= 'Z' then (c as int + 32) as char else c
  }

  function UpperChar(c: char): (d: char)
    ensures 'a' <= c <= 'z' ==> d as int == c as int - 32
    ensures !('a' <= c <= 'z') ==> d == c
  {
    if 'a' <= c <= 'z' then (c as int - 32) as char else c
  }

  /** str.lower() */
  function Lower(s: string): (r: string)
    ensures |r| == |s| && forall i :: 0 <= i < |s| ==> r[i] == LowerChar(s[i])
  {
    seq(|s|, i requires 0 <= i < |s| => LowerChar(s[i]))
  }

  /** str.upper() */
  function Upper(s: string): (r: string)
    ensures |r| == |s| && forall i :: 0 <= i < |s| ==> r[i] == UpperChar(s[i])
  {
    seq(|s|, i requires 0 <= i < |s| => UpperChar(s[i]))
  }

  // ---------------------------------------------------------------------------
  // Stripping

  /** str.lstrip() */
  function LStrip(s: string): string
  {
    if |s| > 0 && IsSpace(s[0]) then LStrip(s[1..]) else s
  }

  /** str.rstrip() */
  function RStrip(s: string): string
  {
    if |s| > 0 && IsSpace(s[|s| - 1]) then RStrip(s[..|s| - 1]) else s
  }

  /** str.strip() */
  function Strip(s: string): string {
    RStrip(LStrip(s))
  }

  /** `[x.strip() for x in parts]`: every element stripped, none dropped. */
  function StripAll(parts: seq<string>): (r: seq<string>)
    ensures |r| == |parts| && forall i :: 0 <= i < |parts| ==> r[i] == Strip(parts[i])
  {
    seq(|parts|, i requires 0 <= i < |parts| => Strip(parts[i]))
  }

  // ---------------------------------------------------------------------------
  // Searching

  /** `needle in hay` for strings. */
  predicate IsSubstring(needle: string, hay: string)
    decreases |hay|
  {
    needle <= hay || (|hay| > 0 && IsSubstring(needle, hay[1..]))
  }

  /** str.startswith(prefix) */
  predicate StartsWith(s: string, prefix: string) {
    prefix <= s
  }

  /** str.replace(pattern, replacement, 1): replaces the first occurrence only. */
  function ReplaceFirst(s: string, pattern: string, replacement: string): (r: string)
    requires |pattern| > 0
    ensures pattern <= s ==> r == replacement + s[|pattern|..]
    decreases |s|
  {
    if pattern <= s then replacement + s[|pattern|..]
    else if s == [] then []
    else [s[0]] + ReplaceFirst(s[1..], pattern, replacement)
  }

  /** Without an occurrence of the pattern, replacing changes nothing. */
  lemma {:induction false} ReplaceFirstAbsent(s: string, pattern: string, replacement: string)
    requires |pattern| > 0 && !IsSubstring(pattern, s)
    ensures ReplaceFirst(s, pattern, replacement) == s
    decreases |s|
  {
    if s != [] {
      ReplaceFirstAbsent(s[1..], pattern, replacement);
      assert [s[0]] + s[1..] == s;
    }
  }

  /** lstrip leaves a suffix of its input, starting with a non-whitespace
      character unless it is empty. */
  lemma {:induction false} LStripIsSuffix(s: string)
    ensures |LStrip(s)| <= |s| && LStrip(s) == s[|s| - |LStrip(s)|..]
    ensures LStrip(s) == [] || !IsSpace(LStrip(s)[0])
    decreases |s|
  {
    if |s| > 0 && IsSpace(s[0]) {
      LStripIsSuffix(s[1..]);
      assert s[1..][|s[1..]| - |LStrip(s)|..] == s[|s| - |LStrip(s)|..];
    }
  }

  /** rstrip leaves a prefix of its input, ending in a non-whitespace
      character unless it is empty. */
  lemma {:induction false} RStripIsPrefix(s: string)
    ensures |RStrip(s)| <= |s| && RStrip(s) == s[..|RStrip(s)|]
    ensures RStrip(s) == [] || !IsSpace(RStrip(s)[|RStrip(s)| - 1])
    decreases |s|
  {
    if |s| > 0 && IsSpace(s[|s| - 1]) {
      var t := s[..|s| - 1];
      RStripIsPrefix(t);
      assert t[..|RStrip(s)|] == s[..|RStrip(s)|];
    }
  }

  /** The characters LStrip drops are whitespace. */
  lemma {:induction false} LStripSkipsSpace(s: string)
    ensures forall i :: 0 <= i < |s| - |LStrip(s)| ==> IsSpace(s[i])
    decreases |s|
  {
    if |s| > 0 && IsSpace(s[0]) {
      LStripSkipsSpace(s[1..]);
      forall i | 0 <= i < |s| - |LStrip(s)|
        ensures IsSpace(s[i])
      {
        if i > 0 {
          assert s[i] == s[1..][i - 1];
        }
      }
    }
  }

  /** Replacing the first occurrence of a pattern that starts with a
      non-whitespace character skips a run of whitespace in front of it. */
  lemma {:induction false} ReplaceAfterSpace(w: string, rest: string, pattern: string, replacement: string)
    requires |pattern| > 0 && !IsSpace(pattern[0])
    requires forall i :: 0 <= i < |w| ==> IsSpace(w[i])
    requires pattern <= rest
    ensures ReplaceFirst(w + rest, pattern, replacement) == w + replacement + rest[|pattern|..]
    decreases |w|
  {
    if w == [] {
      assert w + rest == rest;
    } else {
      var s := w + rest;
      assert s[0] == w[0] && !(pattern <= s);
      assert s[1..] == w[1..] + rest;
      ReplaceAfterSpace(w[1..], rest, pattern, replacement);
      assert [w[0]] + (w[1..] + replacement + rest[|pattern|..]) == w + replacement + rest[|pattern|..];
    }
  }

  /** Stripping a text that starts with a non-whitespace character keeps any
      prefix ending in a non-whitespace character. */
  lemma StripKeepsWord(s: string, k: nat)
    requires k < |s| && !IsSpace(s[0]) && !IsSpace(s[k])
    ensures s[..k + 1] <= Strip(s)
  {
    assert LStrip(s) == s;
    RStripKeeps(s, k);
  }

  /** Stripping a text that starts with a word keeps the word in front. */
  lemma WordStripped(w: string, rest: string)
    requires |w| > 0 && !IsSpace(w[0]) && !IsSpace(w[|w| - 1])
    ensures StartsWith(Strip(w + rest), w)
  {
    var s := w + rest;
    assert s[0] == w[0] && s[|w| - 1] == w[|w| - 1];
    StripKeepsWord(s, |w| - 1);
    assert s[..|w|] == w;
  }

  lemma {:induction false} RStripKeeps(s: string, k: nat)
    requires k < |s| && !IsSpace(s[k])
    ensures |RStrip(s)| > k && s[..k + 1] <= RStrip(s)
    decreases |s|
  {
    if |s| > 0 && IsSpace(s[|s| - 1]) {
      var t := s[..|s| - 1];
      assert k < |t| && t[k] == s[k];
      RStripKeeps(t, k);
      assert t[..k + 1] == s[..k + 1];
    }
  }
  // ---------------------------------------------------------------------------
  // Splitting and joining

  /** sep.join(parts) */
  function Join(parts: seq<string>, sep: string): string {
    if |parts| == 0 then ""
    else if |parts| == 1 then parts[0]
    else parts[0] + sep + Join(parts[1..], sep)
  }

  /** str.split(sep) for a non-empty separator: cuts at every non-overlapping
      occurrence, scanning left to right, and keeps empty pieces. */
  function Split(s: string, sep: string): (parts: seq<string>)
    requires |sep| > 0
    ensures |parts| >= 1
  {
    SplitFrom(s, sep, "")
  }

  /** Helper of Split: `piece` is the part of the current piece already scanned. */
  function SplitFrom(s: string, sep: string, piece: string): (parts: seq<string>)
    requires |sep| > 0
    ensures |parts| >= 1
    decreases |s|
  {
    if sep <= s then [piece] + SplitFrom(s[|sep|..], sep, "")
    else if s == [] then [piece]
    else SplitFrom(s[1..], sep, piece + [s[0]])
  }

  lemma JoinCons(part: string, rest: seq<string>, sep: string)
    requires |rest| >= 1
    ensures Join([part] + rest, sep) == part + sep + Join(rest, sep)
  {
    assert ([part] + rest)[1..] == rest;
  }

  lemma {:induction false} SplitFromJoin(s: string, sep: string, piece: string)
    requires |sep| > 0
    ensures Join(SplitFrom(s, sep, piece), sep) == piece + s
    decreases |s|
  {
    if sep <= s {
      var tail := s[|sep|..];
      SplitFromJoin(tail, sep, "");
      JoinCons(piece, SplitFrom(tail, sep, ""), sep);
      assert "" + tail == tail && sep + tail == s;
      assert piece + sep + tail == piece + s;
    } else if s == [] {
      assert piece + s == piece;
    } else {
      SplitFromJoin(s[1..], sep, piece + [s[0]]);
      assert piece + [s[0]] + s[1..] == piece + s;
    }
  }

  /** Joining the pieces of a split with the separator gives back the text. */
  lemma SplitJoin(s: string, sep: string)
    requires |sep| > 0
    ensures Join(Split(s, sep), sep) == s
  {
    SplitFromJoin(s, sep, "");
  }

  lemma {:induction false} SplitFromNoSep(s: string, sep: string, piece: string)
    requires |sep| > 0 && !IsSubstring(sep, s)
    ensures SplitFrom(s, sep, piece) == [piece + s]
    decreases |s|
  {
    assert !(sep <= s);
    if s == [] {
      assert piece + s == piece;
    } else {
      SplitFromNoSep(s[1..], sep, piece + [s[0]]);
      assert piece + [s[0]] + s[1..] == piece + s;
    }
  }

  /** No occurrence of `sep` starts inside `piece` when `s` follows it: what
      SplitFrom knows about the piece it has scanned so far. */
  ghost predicate NoSepBefore(piece: string, s: string, sep: string) {
    forall k :: 0 <= k < |piece| ==> !(sep <= piece[k..] + s)
  }

  /** A text with no occurrence starting anywhere in it does not contain it. */
  lemma {:induction false} NoSepAt(sep: string, t: string)
    requires |sep| > 0
    requires forall k :: 0 <= k < |t| ==> !(sep <= t[k..])
    ensures !IsSubstring(sep, t)
    decreases |t|
  {
    if |t| > 0 {
      assert t[0..] == t;
      forall k | 0 <= k < |t[1..]| ensures !(sep <= t[1..][k..]) {
        assert t[1..][k..] == t[k + 1..];
      }
      NoSepAt(sep, t[1..]);
    }
  }

  /** A piece SplitFrom cuts off at an occurrence of `sep` holds no
      occurrence, not even one that runs into the separator after it. */
  lemma PieceAtCut(piece: string, s: string, sep: string)
    requires |sep| > 0 && sep <= s && NoSepBefore(piece, s, sep)
    ensures !IsSubstring(sep, piece + sep[..|sep| - 1])
  {
    var t := piece + sep[..|sep| - 1];
    forall k | 0 <= k < |t| ensures !(sep <= t[k..]) {
      if k < |piece| && sep <= t[k..] {
        PrefixAcrossCut(piece, s, sep, k);
      }
    }
    NoSepAt(sep, t);
  }

  /** An occurrence starting at `k` in `piece + sep[..|sep| - 1]` is one in
      `piece + s` as well when `s` starts with `sep`. */
  lemma PrefixAcrossCut(piece: string, s: string, sep: string, k: nat)
    requires |sep| > 0 && sep <= s && k < |piece|
    requires sep <= (piece + sep[..|sep| - 1])[k..]
    ensures sep <= piece[k..] + s
  {
    var t := piece + sep[..|sep| - 1];
    forall j | 0 <= j < |sep| ensures (piece[k..] + s)[j] == sep[j] {
      assert t[k..][j] == sep[j];
      if j < |piece| - k {
        assert (piece[k..] + s)[j] == piece[k + j] == t[k..][j];
      } else {
        assert (piece[k..] + s)[j] == s[j - (|piece| - k)] == sep[j - (|piece| - k)];
        assert t[k..][j] == sep[..|sep| - 1][j - (|piece| - k)];
      }
    }
  }

  /** The last piece, scanned to the end of the text, holds no occurrence. */
  lemma PieceAtEnd(piece: string, sep: string)
    requires |sep| > 0 && NoSepBefore(piece, [], sep)
    ensures !IsSubstring(sep, piece)
  {
    forall k | 0 <= k < |piece| ensures !(sep <= piece[k..]) {
      assert piece[k..] + [] == piece[k..];
    }
    NoSepAt(sep, piece);
  }

  lemma {:induction false} SplitFromLeftmost(s: string, sep: string, piece: string)
    requires |sep| > 0 && NoSepBefore(piece, s, sep)
    ensures var ps := SplitFrom(s, sep, piece);
            (forall i :: 0 <= i < |ps| - 1 ==> !IsSubstring(sep, ps[i] + sep[..|sep| - 1]))
            && !IsSubstring(sep, ps[|ps| - 1])
    decreases |s|
  {
    if sep <= s {
      PieceAtCut(piece, s, sep);
      SplitFromLeftmost(s[|sep|..], sep, "");
      var rest := SplitFrom(s[|sep|..], sep, "");
      var ps := [piece] + rest;
      assert SplitFrom(s, sep, piece) == ps;
      forall i | 0 <= i < |ps| - 1 ensures !IsSubstring(sep, ps[i] + sep[..|sep| - 1]) {
        if i > 0 { assert ps[i] == rest[i - 1]; }
      }
      assert ps[|ps| - 1] == rest[|rest| - 1];
    } else if s == [] {
      PieceAtEnd(piece, sep);
    } else {
      var p' := piece + [s[0]];
      forall k | 0 <= k < |p'| ensures !(sep <= p'[k..] + s[1..]) {
        if k < |piece| {
          assert p'[k..] + s[1..] == piece[k..] + s;
        } else {
          assert p'[k..] + s[1..] == s;
        }
      }
      SplitFromLeftmost(s[1..], sep, p');
    }
  }

  /** str.split cuts at the leftmost occurrences: no piece holds the
      separator, and no occurrence starts inside a piece that a cut ends. */
  lemma SplitLeftmost(s: string, sep: string)
    requires |sep| > 0
    ensures var ps := Split(s, sep);
            (forall i :: 0 <= i < |ps| - 1 ==> !IsSubstring(sep, ps[i] + sep[..|sep| - 1]))
            && !IsSubstring(sep, ps[|ps| - 1])
  {
    SplitFromLeftmost(s, sep, "");
  }

  /** No piece of str.split holds the separator. */
  lemma SplitPiecesHaveNoSep(s: string, sep: string)
    requires |sep| > 0
    ensures forall i :: 0 <= i < |Split(s, sep)| ==> !IsSubstring(sep, Split(s, sep)[i])
  {
    var ps := Split(s, sep);
    SplitLeftmost(s, sep);
    forall i | 0 <= i < |ps| ensures !IsSubstring(sep, ps[i]) {
      if i < |ps| - 1 && IsSubstring(sep, ps[i]) {
        SubstringOfPrefix(sep, ps[i], sep[..|sep| - 1]);
      }
    }
  }

  /** An occurrence in a text is an occurrence in any extension of it. */
  lemma {:induction false} SubstringOfPrefix(needle: string, a: string, b: string)
    requires IsSubstring(needle, a)
    ensures IsSubstring(needle, a + b)
    decreases |a|
  {
    if needle <= a {
      assert (a + b)[..|needle|] == a[..|needle|];
    } else {
      assert (a + b)[1..] == a[1..] + b;
      SubstringOfPrefix(needle, a[1..], b);
    }
  }

  /** A text without the separator splits into itself alone. */
  lemma SplitNoSep(s: string, sep: string)
    requires |sep| > 0 && !IsSubstring(sep, s)
    ensures Split(s, sep) == [s]
  {
    SplitFromNoSep(s, sep, "");
    assert "" + s == s;
  }

  // ---------------------------------------------------------------------------
  // Whitespace splitting (str.split() without arguments)

  /** str.split(): the maximal runs of non-whitespace, in order. */
  function Words(s: string): seq<string> {
    WordsFrom(s, [])
  }

  /** Helper of Words: `word` is the run of non-whitespace scanned so far. */
  function WordsFrom(s: string, word: string): (ws: seq<string>)
    ensures forall i :: 0 <= i < |ws| ==> ws[i] != []
    decreases |s|
  {
    if s == [] then (if word == [] then [] else [word])
    else if IsSpace(s[0]) then (if word == [] then [] else [word]) + WordsFrom(s[1..], [])
    else WordsFrom(s[1..], word + [s[0]])
  }

  /** ' '.join(s.lower().split()): lower-cased, whitespace runs collapsed to one
      space, no leading or trailing whitespace. */
  function Normalize(s: string): string {
    Join(Words(Lower(s)), " ")
  }

  // ---------------------------------------------------------------------------
  // Numbers

  function DigitChar(d: nat): char
    requires d < 10
  {
    "0123456789"[d]
  }

  /** str(n) for a natural number. */
  function NatToString(n: nat): (s: string)
    ensures |s| >= 1
    decreases n
  {
    if n < 10 then [DigitChar(n)] else NatToString(n / 10) + [DigitChar(n % 10)]
  }

  /** str(i) for an integer. */
  function IntToString(i: int): string {
    if i < 0 then "-" + NatToString(-i) else NatToString(i)
  }

  function DigitValue(c: char): (d: nat)
    requires '0' <= c <= '9'
    ensures d < 10
  {
    c as int - '0' as int
  }

  predicate AllDigits(s: string) {
    forall i :: 0 <= i < |s| ==> '0' <= s[i] <= '9'
  }

  function DigitsValue(s: string): nat
    requires AllDigits(s)
  {
    if s == [] then 0 else DigitsValue(s[..|s| - 1]) * 10 + DigitValue(s[|s| - 1])
  }

  /** int(s) for a string: surrounding whitespace, an optional sign and at least
      one ASCII digit; None where Python raises ValueError. */
  function ParseInt(s: string): (r: Option<int>)
    ensures r.Some? ==> Strip(s) != ""
  {
    var t := Strip(s);
    if |t| > 0 && (t[0] == '-' || t[0] == '+') then
      var body := t[1..];
      if body != [] && AllDigits(body) then
        var magnitude: int := DigitsValue(body);
        Some(if t[0] == '-' then -magnitude else magnitude)
      else None
    else if t != [] && AllDigits(t) then Some(DigitsValue(t))
    else None
  }
}
