/**
  The mapping between MQTT topics and NATS subjects (topic/subject.go), and MQTT matching against NATS
  matching. The one-pass byte loop of `Convert` is proved equal to encoding each level on its own and
  joining the results with dots; the byte loop of `SubjectToName` is proved to undo it.
 */
module Subjects {
  import opened Topics
  import opened Seqs

  // ---------------------------------------------------------------- level by level

  /** The letter after '/' that stands for a byte a subject cannot carry. */
  function EscapeLetter(c: char): char
    requires Special(c)
  {
    match c
    case '*' => 's'
    case '>' => 'g'
    case ' ' => 'p'
    case '\t' => 't'
    case '\n' => 'n'
    case '\r' => 'r'
    case '\U{000C}' => 'f'
    case _ => 'd'
  }

  /** The byte an escape letter stands for. */
  function Unescape(l: char): (r: Option<char>)
    ensures forall c :: Special(c) && EscapeLetter(c) == l ==> r == Some(c)
  {
    match l
    case 's' => Some('*')
    case 'g' => Some('>')
    case 'p' => Some(' ')
    case 't' => Some('\t')
    case 'n' => Some('\n')
    case 'r' => Some('\r')
    case 'f' => Some('\U{000C}')
    case 'd' => Some('\U{007F}')
    case _ => None
  }

  function EncodeByte(c: char, wildcards: bool, escape: bool): string {
    if c == '.' then "//"
    else if Special(c) && escape then ['/', EscapeLetter(c)]
    else if c == '+' && wildcards then "*"
    else if c == '#' && wildcards then ">"
    else [c]
  }

  function EncodeBytes(level: string, wildcards: bool, escape: bool): string {
    if level == "" then ""
    else EncodeBytes(level[..|level| - 1], wildcards, escape) + EncodeByte(level[|level| - 1], wildcards, escape)
  }

  /** One level of a topic as one token of a subject. An empty level is "/". */
  function EncodeLevel(level: string, wildcards: bool, escape: bool): string {
    if level == "" then "/" else EncodeBytes(level, wildcards, escape)
  }

  function EncodeLevels(levels: seq<string>, wildcards: bool, escape: bool): (tokens: seq<string>)
    ensures |tokens| == |levels|
    ensures forall i :: 0 <= i < |levels| ==> tokens[i] == EncodeLevel(levels[i], wildcards, escape)
  {
    seq(|levels|, i requires 0 <= i < |levels| => EncodeLevel(levels[i], wildcards, escape))
  }

  /** The subject of a topic: its levels encoded one by one, with dots between them. */
  function Subject(mt: string, wildcards: bool, escape: bool): string {
    Join(EncodeLevels(Split(mt, '/'), wildcards, escape), '.')
  }

  lemma {:induction false} EncodeBytesShape(level: string, wildcards: bool, escape: bool)
    ensures '.' !in EncodeBytes(level, wildcards, escape)
    ensures level != "" ==> EncodeBytes(level, wildcards, escape) != ""
    decreases |level|
  {
    if level != "" { EncodeBytesShape(level[..|level| - 1], wildcards, escape); }
  }

  lemma TokensAreDotFree(levels: seq<string>, wildcards: bool, escape: bool)
    ensures Free(EncodeLevels(levels, wildcards, escape), '.')
    ensures forall i :: 0 <= i < |levels| ==> EncodeLevels(levels, wildcards, escape)[i] != ""
  {
    forall i | 0 <= i < |levels|
      ensures '.' !in EncodeLevels(levels, wildcards, escape)[i] && EncodeLevels(levels, wildcards, escape)[i] != ""
    {
      EncodeBytesShape(levels[i], wildcards, escape);
    }
  }

  /** The tokens of a subject are the encoded levels of its topic. */
  lemma SubjectTokens(mt: string, wildcards: bool, escape: bool)
    ensures Split(Subject(mt, wildcards, escape), '.') == EncodeLevels(Split(mt, '/'), wildcards, escape)
  {
    var levels := Split(mt, '/');
    TokensAreDotFree(levels, wildcards, escape);
    SplitUndoesJoin(EncodeLevels(levels, wildcards, escape), '.');
  }

  // ---------------------------------------------------------------- the one-pass loop

  /** The encoding of every finished level of the prefix `p`, each followed by a dot. */
  ghost function Finished(p: string, wildcards: bool, escape: bool): string {
    var levels := Split(p, '/');
    var k := |levels| - 1;
    if k == 0 then "" else Join(EncodeLevels(levels[..k], wildcards, escape), '.') + "."
  }

  ghost function Current(p: string): string {
    var levels := Split(p, '/');
    levels[|levels| - 1]
  }

  /** Reading a slash finishes the current level and starts an empty one. */
  lemma FinishLevel(p: string, wildcards: bool, escape: bool)
    ensures Current(p + "/") == ""
    ensures Finished(p + "/", wildcards, escape)
         == Finished(p, wildcards, escape) + EncodeLevel(Current(p), wildcards, escape) + "."
  {
    var levels := Split(p, '/');
    var k := |levels| - 1;
    assert (p + "/")[..|p|] == p;
    var after := Split(p + "/", '/');
    assert after == levels + [""];
    assert after[..k + 1] == levels;
    var tokens := EncodeLevels(levels, wildcards, escape);
    assert tokens[..k] == EncodeLevels(levels[..k], wildcards, escape);
  }

  /** Reading any other byte extends the current level. */
  lemma ExtendLevel(p: string, c: char, wildcards: bool, escape: bool)
    requires c != '/'
    ensures Current(p + [c]) == Current(p) + [c]
    ensures Finished(p + [c], wildcards, escape) == Finished(p, wildcards, escape)
  {
    var levels := Split(p, '/');
    var k := |levels| - 1;
    assert (p + [c])[..|p|] == p;
    var after := Split(p + [c], '/');
    assert after == levels[..k] + [levels[k] + [c]];
    assert after[..k] == levels[..k];
  }

  lemma SubjectOfPrefix(p: string, wildcards: bool, escape: bool)
    ensures Subject(p, wildcards, escape)
         == Finished(p, wildcards, escape) + EncodeLevel(Current(p), wildcards, escape)
  {
    var levels := Split(p, '/');
    var k := |levels| - 1;
    var tokens := EncodeLevels(levels, wildcards, escape);
    assert tokens[..k] == EncodeLevels(levels[..k], wildcards, escape);
  }

  ghost predicate LastIsDot(s: string) { s != "" && s[|s| - 1] == '.' }

  /** What the loop has written after the prefix `p`: a slash for the level to come may be ahead of it. */
  ghost predicate Written(out: string, p: string, slashNext: bool, wildcards: bool, escape: bool) {
    || out == Finished(p, wildcards, escape) + EncodeBytes(Current(p), wildcards, escape)
    || (p != "" && Current(p) == "" && slashNext && out == Finished(p, wildcards, escape) + "/")
  }

  lemma WrittenEndsInDot(out: string, p: string, slashNext: bool, wildcards: bool, escape: bool)
    requires p != "" && Written(out, p, slashNext, wildcards, escape)
    ensures LastIsDot(out) ==> out == Finished(p, wildcards, escape) && Current(p) == ""
    ensures !LastIsDot(out) ==> out == Finished(p, wildcards, escape) + EncodeLevel(Current(p), wildcards, escape)
  {
    JoinUndoesSplit(p, '/');
    var cur := EncodeBytes(Current(p), wildcards, escape);
    EncodeBytesShape(Current(p), wildcards, escape);
    if Current(p) == "" {
      assert LastIsDot(Finished(p, wildcards, escape));
    } else {
      assert cur[|cur| - 1] in cur;
      assert out[|out| - 1] == cur[|cur| - 1];
    }
  }

  lemma StartWritten(slashNext: bool, wildcards: bool, escape: bool)
    ensures forall out :: Written(out, "", slashNext, wildcards, escape) <==> out == ""
    ensures Finished("", wildcards, escape) == "" && Current("") == ""
  {
  }

  /** The three ways a slash is written, by the byte before it in the output and the byte after it in the input. */
  lemma WriteSlash(out: string, p: string, slashNext: bool, wildcards: bool, escape: bool)
    requires Written(out, p, true, wildcards, escape)
    ensures p == "" || LastIsDot(out) ==> Written(out + "/.", p + "/", slashNext, wildcards, escape)
    ensures p != "" && !LastIsDot(out) && slashNext ==> Written(out + "./", p + "/", slashNext, wildcards, escape)
    ensures p != "" && !LastIsDot(out) ==> Written(out + ".", p + "/", slashNext, wildcards, escape)
  {
    hide Finished, Current, Split, Join;
    FinishLevel(p, wildcards, escape);
    assert EncodeBytes("", wildcards, escape) == "";
    var after := Finished(p + "/", wildcards, escape);
    assert after + "" == after;
    StartWritten(true, wildcards, escape);
    if p == "" {
      assert out + "/." == after;
    } else {
      WrittenEndsInDot(out, p, true, wildcards, escape);
      if LastIsDot(out) {
        Assoc(out, "/", ".");
      } else {
        Assoc(out, ".", "/");
      }
    }
  }

  lemma EncodeSnoc(level: string, c: char, wildcards: bool, escape: bool)
    ensures EncodeBytes(level + [c], wildcards, escape) ==
            EncodeBytes(level, wildcards, escape) + EncodeByte(c, wildcards, escape)
  {
    Parts(level, [c]);
  }

  lemma WriteByte(out: string, p: string, c: char, slashNext: bool, wildcards: bool, escape: bool)
    requires c != '/' && Written(out, p, false, wildcards, escape)
    ensures Written(out + EncodeByte(c, wildcards, escape), p + [c], slashNext, wildcards, escape)
  {
    hide Finished, Current, Split, Join, EncodeByte;
    ExtendLevel(p, c, wildcards, escape);
    EncodeSnoc(Current(p), c, wildcards, escape);
    Assoc(Finished(p, wildcards, escape), EncodeBytes(Current(p), wildcards, escape), EncodeByte(c, wildcards, escape));
  }

  /** The trailing level still has to be written when the output ends in a dot. */
  lemma FinishOutput(out: string, mt: string, wildcards: bool, escape: bool)
    requires Written(out, mt, true, wildcards, escape)
    ensures mt == "" ==> out == ""
    ensures mt != "" ==> Subject(mt, wildcards, escape) == if LastIsDot(out) then out + "/" else out
  {
    if mt != "" {
      SubjectOfPrefix(mt, wildcards, escape);
      WrittenEndsInDot(out, mt, true, wildcards, escape);
    }
  }

  /** convert: one pass over the bytes, looking one byte back in the output and one ahead in the input. */
  method Convert(mt: string, wildcards: bool, escape: bool) returns (out: string)
    ensures mt != "" ==> out == Subject(mt, wildcards, escape)
    ensures mt == "" ==> out == ""
  {
    hide Written, Finished, Current, Split, Join, Subject, EncodeByte, EncodeBytes;
    out := "";
    var end := |mt| - 1;
    if mt != "" { StartWritten(mt[0] == '/', wildcards, escape); } else { StartWritten(true, wildcards, escape); }
    assert mt[..0] == "";
    for i := 0 to |mt|
      invariant Written(out, mt[..i], i == |mt| || mt[i] == '/', wildcards, escape)
    {
      var c := mt[i];
      assert mt[..i + 1] == mt[..i] + [c];
      if c == '/' {
        WriteSlash(out, mt[..i], i == end || mt[i + 1] == '/', wildcards, escape);
        if i == 0 || (out != "" && out[|out| - 1] == '.') {
          out := out + "/.";
        } else if i == end || mt[i + 1] == '/' {
          out := out + "./";
        } else {
          out := out + ".";
        }
      } else {
        WriteByte(out, mt[..i], c, i == end || mt[i + 1] == '/', wildcards, escape);
        out := out + EncodeByte(c, wildcards, escape);
      }
    }
    assert mt[..|mt|] == mt;
    FinishOutput(out, mt, wildcards, escape);
    if out != "" && out[|out| - 1] == '.' {
      out := out + "/";
    }
  }

  // ---------------------------------------------------------------- and back

  /** The byte a subject spells first, if any, and how many bytes of the subject it takes. */
  function Head(s: string): (r: (string, nat))
    requires s != ""
    ensures 1 <= r.1 <= |s|
  {
    if s[0] == '/' then
      if |s| == 1 then ("", 1)
      else if s[1] == '.' then ("/", 2)
      else if s[1] == '/' then (".", 2)
      else match Unescape(s[1])
        case Some(c) => ([c], 2)
        case None => ("", 1)
    else if s[0] == '.' then ("/", 1)
    else ([s[0]], 1)
  }

  function Decode(s: string): string
    decreases |s|
  {
    if s == "" then "" else Head(s).0 + Decode(s[Head(s).1..])
  }

  lemma DecodeStep(e: string, piece: string, rest: string)
    requires e != "" && Head(e + rest) == (piece, |e|)
    ensures Decode(e + rest) == piece + Decode(rest)
  {
    Parts(e, rest);
  }

  /** subjectToName: the byte loop, which skips the second byte of a two-byte sequence. */
  method SubjectToName(subject: string) returns (name: string)
    ensures name == Decode(subject)
  {
    name := "";
    var i := 0;
    while i < |subject|
      invariant 0 <= i <= |subject|
      invariant Decode(subject) == name + Decode(subject[i..])
    {
      var piece, next := [subject[i]], i + 1;
      if subject[i] == '/' {
        piece := "";
        if i + 1 < |subject| {
          if subject[i + 1] == '.' {
            piece, next := "/", i + 2;
          } else if subject[i + 1] == '/' {
            piece, next := ".", i + 2;
          } else {
            var c := Unescape(subject[i + 1]);
            if c.Some? {
              piece, next := [c.value], i + 2;
            }
          }
        }
      } else if subject[i] == '.' {
        piece := "/";
      }
      assert Head(subject[i..]) == (piece, next - i);
      assert subject[i..] == subject[i..next] + subject[next..];
      DecodeStep(subject[i..next], piece, subject[next..]);
      Assoc(name, piece, Decode(subject[next..]));
      name := name + piece;
      i := next;
    }
  }

  lemma ByteHead(c: char, escape: bool, rest: string)
    requires c != '/'
    ensures var e := EncodeByte(c, false, escape);
            e != "" && Head(e + rest) == ([c], |e|)
  {
  }

  lemma {:induction false} DecodeBytes(level: string, escape: bool, rest: string)
    requires '/' !in level
    ensures Decode(EncodeBytes(level, false, escape) + rest) == level + Decode(rest)
    decreases |level|
  {
    if level == "" {
      assert EncodeBytes(level, false, escape) + rest == rest;
    } else {
      var front, c := level[..|level| - 1], level[|level| - 1];
      assert c in level;
      var e := EncodeByte(c, false, escape);
      DecodeBytes(front, escape, e + rest);
      ByteHead(c, escape, rest);
      DecodeStep(e, [c], rest);
      Assoc(EncodeBytes(front, false, escape), e, rest);
      Assoc(front, [c], Decode(rest));
      assert level == front + [c];
    }
  }

  lemma DecodeLevel(level: string, escape: bool, rest: string)
    requires '/' !in level
    ensures Decode(EncodeLevel(level, false, escape)) == level
    ensures Decode(EncodeLevel(level, false, escape) + "." + rest) == level + "/" + Decode(rest)
  {
    var e := EncodeLevel(level, false, escape);
    if level == "" {
      DecodeStep("/.", "/", rest);
    } else {
      DecodeBytes(level, escape, "");
      assert e + "" == e;
      DecodeBytes(level, escape, "." + rest);
      DecodeStep(".", "/", rest);
      Assoc(e, ".", rest);
      Assoc(level, "/", Decode(rest));
    }
  }

  lemma {:induction false} DecodeFront(levels: seq<string>, tokens: seq<string>, escape: bool, rest: string)
    requires |levels| >= 1 && Free(levels, '/') && tokens == EncodeLevels(levels, false, escape)
    ensures Decode(Join(tokens, '.') + "." + rest) == Join(levels, '/') + "/" + Decode(rest)
    decreases |levels|
  {
    hide Decode, EncodeLevel;
    var k := |levels| - 1;
    DecodeLevel(levels[k], escape, rest);
    if k > 0 {
      assert tokens[..k] == EncodeLevels(levels[..k], false, escape);
      DecodeFront(levels[..k], tokens[..k], escape, tokens[k] + "." + rest);
      Chain(Join(tokens[..k], '.'), Join(levels[..k], '/'), tokens[k], levels[k], rest);
    }
  }

  lemma Chain(front: string, names: string, token: string, level: string, rest: string)
    requires Decode(front + "." + (token + "." + rest)) == names + "/" + Decode(token + "." + rest)
    requires Decode(token + "." + rest) == level + "/" + Decode(rest)
    ensures Decode(front + "." + token + "." + rest) == names + "/" + level + "/" + Decode(rest)
  {
    hide Decode;
    Regroup(front + ".", token, ".", rest);
    Regroup(names + "/", level, "/", Decode(rest));
  }

  lemma Regroup(a: string, b: string, c: string, d: string)
    ensures ((a + b) + c) + d == a + ((b + c) + d)
  {
  }

  lemma DecodeLevels(levels: seq<string>, tokens: seq<string>, escape: bool)
    requires |levels| >= 1 && Free(levels, '/') && tokens == EncodeLevels(levels, false, escape)
    ensures Decode(Join(tokens, '.')) == Join(levels, '/')
  {
    var k := |levels| - 1;
    DecodeLevel(levels[k], escape, "");
    if k > 0 {
      assert tokens[..k] == EncodeLevels(levels[..k], false, escape);
      DecodeFront(levels[..k], tokens[..k], escape, tokens[k]);
    }
  }

  /** Reading back a subject gives the name it came from, with and without escaping. */
  lemma NameRoundTrip(name: string, escape: bool)
    ensures Decode(Subject(name, false, escape)) == name
  {
    SplitIsFree(name, '/');
    var levels := Split(name, '/');
    DecodeLevels(levels, EncodeLevels(levels, false, escape), escape);
    JoinUndoesSplit(name, '/');
  }

  /** Two names never share a subject, not even when one was escaped and the other was not. */
  lemma NamesDoNotCollide(a: string, b: string, escapeA: bool, escapeB: bool)
    requires Subject(a, false, escapeA) == Subject(b, false, escapeB)
    ensures a == b
  {
    NameRoundTrip(a, escapeA);
    NameRoundTrip(b, escapeB);
  }

  // ---------------------------------------------------------------- NATS matching

  /** A NATS filter against a subject, token by token: `*` is one token, `>` is one or more. */
  predicate NatsMatch(f: seq<string>, s: seq<string>) {
    if f == [] then s == []
    else if f[0] == ">" then s != []
    else s != [] && (f[0] == "*" || f[0] == s[0]) && NatsMatch(f[1..], s[1..])
  }

  predicate SubjectMatches(filter: string, subject: string) {
    NatsMatch(Split(filter, '.'), Split(subject, '.'))
  }

  function NameToSubject(name: string, escape: bool): Option<string> {
    if ValidName(name, escape) then Some(Subject(name, false, escape)) else None
  }

  function FilterToSubject(filter: string, escape: bool): Option<string> {
    if ValidFilter(filter, escape) then Some(Subject(Inner(filter), true, escape)) else None
  }

  /** The bytes of a subject that stand for one a subject cannot carry, for a dot, and for an empty level. */
  lemma EncodingTable(escape: bool, wildcards: bool)
    ensures EncodeByte('.', wildcards, escape) == "//" && EncodeLevel("", wildcards, escape) == "/"
    ensures EncodeByte('+', true, escape) == "*" && EncodeByte('#', true, escape) == ">"
    ensures EncodeByte('*', wildcards, true) == "/s" && EncodeByte('>', wildcards, true) == "/g"
    ensures EncodeByte(' ', wildcards, true) == "/p" && EncodeByte('\t', wildcards, true) == "/t"
    ensures EncodeByte('\n', wildcards, true) == "/n" && EncodeByte('\r', wildcards, true) == "/r"
    ensures EncodeByte('\U{000C}', wildcards, true) == "/f" && EncodeByte('\U{007F}', wildcards, true) == "/d"
    ensures forall c :: c !in {'.', '+', '#'} && !Unsafe(c) ==> EncodeByte(c, wildcards, escape) == [c]
  {
  }

  /** ParentSubject: the second subscription a filter ending in `#` needs. */
  function ParentSubject(subject: string): Option<string> {
    if |subject| < 3 || subject[|subject| - 2..] != ".>" then None else Some(subject[..|subject| - 2])
  }

  function Prefix(prefix: string, subject: string): string {
    if prefix == "" then subject else prefix + "." + subject
  }

  function TrimPrefix(prefix: string, subject: string): Option<string> {
    if prefix == "" then Some(subject)
    else if prefix + "." <= subject then Some(subject[|prefix| + 1..])
    else None
  }

  lemma TrimPrefixUndoesPrefix(prefix: string, subject: string)
    ensures TrimPrefix(prefix, Prefix(prefix, subject)) == Some(subject)
  {
    if prefix != "" {
      assert (prefix + "." + subject)[|prefix| + 1..] == subject;
    }
  }

  function ExtendLast(parts: seq<string>, c: char): seq<string>
    requires |parts| >= 1
  {
    parts[..|parts| - 1] + [parts[|parts| - 1] + [c]]
  }

  lemma SplitSnoc(s: string, c: char, sep: char)
    ensures c == sep ==> Split(s + [c], sep) == Split(s, sep) + [""]
    ensures c != sep ==> Split(s + [c], sep) == ExtendLast(Split(s, sep), c)
  {
    Parts(s, [c]);
  }

  lemma {:induction false} SplitConcat(a: string, b: string, sep: char)
    ensures Split(a + [sep] + b, sep) == Split(a, sep) + Split(b, sep)
    decreases |b|
  {
    if b == "" {
      SplitSnoc(a, sep, sep);
      assert a + [sep] + b == a + [sep];
    } else {
      var front := b[..|b| - 1];
      SplitConcat(a, front, sep);
      SplitConcatSnoc(a, front, b[|b| - 1], sep);
      assert b == front + [b[|b| - 1]];
    }
  }

  lemma SplitConcatSnoc(a: string, front: string, c: char, sep: char)
    requires Split(a + [sep] + front, sep) == Split(a, sep) + Split(front, sep)
    ensures Split(a + [sep] + (front + [c]), sep) == Split(a, sep) + Split(front + [c], sep)
  {
    hide Split;
    SplitSnoc(a + [sep] + front, c, sep);
    SplitSnoc(front, c, sep);
    Assoc(a + [sep], front, [c]);
    if c == sep {
      Assoc(Split(a, sep), Split(front, sep), [""]);
    } else {
      var right := Split(front, sep);
      ReplaceLast(Split(a, sep), right, right[|right| - 1] + [c]);
    }
  }

  lemma PrefixTokens(prefix: string, subject: string)
    ensures prefix != "" ==> Split(Prefix(prefix, subject), '.') == Split(prefix, '.') + Split(subject, '.')
  {
    SplitConcat(prefix, subject, '.');
  }

  /** A common front without `>` is matched token by token and drops out. */
  lemma {:induction false} CommonFront(front: seq<string>, f: seq<string>, s: seq<string>)
    requires ">" !in front
    ensures NatsMatch(front + f, front + s) == NatsMatch(f, s)
    decreases |front|
  {
    if front == [] {
      assert front + f == f && front + s == s;
    } else {
      CommonFront(front[1..], f, s);
      assert (front + f)[1..] == front[1..] + f && (front + s)[1..] == front[1..] + s;
    }
  }

  /** ParentSubject in tokens: it drops a last token ">" that has something before it. */
  lemma ParentTokens(subject: string)
    requires "" !in Split(subject, '.')
    ensures var t := Split(subject, '.');
            var p := ParentSubject(subject);
            && (p.Some? <==> |t| >= 2 && t[|t| - 1] == ">")
            && (p.Some? ==> Split(p.value, '.') == t[..|t| - 1])
  {
    var t := Split(subject, '.');
    var k := |t| - 1;
    JoinUndoesSplit(subject, '.');
    if ParentSubject(subject).Some? {
      var p := ParentSubject(subject).value;
      assert subject == p + ['.'] + ">";
      SplitAppend(p, ">", '.');
      Parts(Split(p, '.'), [">"]);
    } else if k >= 1 {
      SplitIsFree(subject, '.');
      EndsInWildcard(t);
    }
  }

  lemma JoinLast(parts: seq<string>, sep: char)
    requires |parts| >= 2
    ensures Join(parts, sep) == Join(parts[..|parts| - 1], sep) + [sep] + parts[|parts| - 1]
  {
  }

  /** A subject whose last token is ">" ends in ".>" and is longer than that. */
  lemma EndsInWildcard(t: seq<string>)
    requires |t| >= 2 && "" !in t && Free(t, '.')
    ensures t[|t| - 1] == ">" ==> ParentSubject(Join(t, '.')).Some?
  {
    var k := |t| - 1;
    var front := Join(t[..k], '.');
    assert front != "" by {
      SplitUndoesJoin(t[..k], '.');
      assert t[0] == t[..k][0] == Split(front, '.')[0];
    }
    hide Join, Split;
    if t[k] == ">" {
      assert Join(t, '.') == front + ['.'] + t[k] by { JoinLast(t, '.'); }
      assert (front + ['.'] + ">")[|front|..] == ".>";
    }
  }

  // ---------------------------------------------------------------- MQTT matching is NATS matching

  /** What a level of an accepted filter looks like as a token. */
  lemma TokenOfLevel(level: string, escape: bool)
    requires PlainLevel(level, escape)
    requires level == "+" || '+' !in level
    requires level == "#" || '#' !in level
    ensures EncodeLevel(level, true, escape) == "*" <==> level == "+"
    ensures EncodeLevel(level, true, escape) == ">" <==> level == "#"
    ensures level != "+" && level != "#" ==> EncodeLevel(level, true, escape) == EncodeLevel(level, false, escape)
  {
    if level == "+" || level == "#" {
      assert level[..0] == "";
      var e := EncodeByte(level[0], true, escape);
      assert EncodeBytes(level, true, escape) == "" + e == e;
    } else {
      WildcardFree(level, escape);
      NoWildcardToken(level, escape);
    }
  }

  /** No level spells a NATS wildcard: an accepted byte is not one, or it is escaped. */
  lemma NoWildcardToken(level: string, escape: bool)
    requires '/' !in level
    requires escape || forall i :: 0 <= i < |level| ==> !Special(level[i])
    ensures EncodeLevel(level, false, escape) != "*" && EncodeLevel(level, false, escape) != ">"
  {
    DecodeLevel(level, escape, "");
    SingleByte('*', escape);
    SingleByte('>', escape);
  }

  lemma SingleByte(c: char, escape: bool)
    requires Special(c)
    ensures Decode([c]) == [c]
    ensures EncodeLevel([c], false, escape) == if escape then ['/', EscapeLetter(c)] else [c]
  {
    assert [c] + "" == [c];
    DecodeStep([c], [c], "");
    assert [c][..0] == "";
    var e := EncodeByte(c, false, escape);
    assert EncodeBytes([c], false, escape) == "" + e == e;
  }

  lemma {:induction false} WildcardFree(level: string, escape: bool)
    requires '+' !in level && '#' !in level
    ensures EncodeBytes(level, true, escape) == EncodeBytes(level, false, escape)
    decreases |level|
  {
    if level != "" {
      assert level[|level| - 1] in level;
      WildcardFree(level[..|level| - 1], escape);
    }
  }

  /** Bytes a level may hold: those of the topic it comes from. */
  ghost predicate PlainLevel(level: string, escape: bool) {
    && '/' !in level && '\0' !in level
    && (escape || forall i :: 0 <= i < |level| ==> !Special(level[i]))
  }

  ghost predicate PlainLevels(levels: seq<string>, escape: bool) {
    forall i :: 0 <= i < |levels| ==> PlainLevel(levels[i], escape)
  }

  lemma {:induction false} LevelsArePlain(s: string, escape: bool)
    requires '\0' !in s
    requires escape || forall i :: 0 <= i < |s| ==> !Special(s[i])
    ensures PlainLevels(Split(s, '/'), escape)
    decreases |s|
  {
    if s != "" {
      var front := s[..|s| - 1];
      LevelsArePlain(front, escape);
      var parts := Split(front, '/');
      forall i | 0 <= i < |Split(s, '/')| ensures PlainLevel(Split(s, '/')[i], escape) {
        if i < |parts| { assert PlainLevel(parts[i], escape); }
      }
    }
  }

  /** The first level matches exactly when the first token does. */
  lemma FirstTokens(f: string, n: string, escape: bool)
    requires PlainLevel(f, escape) && (f == "+" || '+' !in f) && '#' !in f
    requires PlainLevel(n, escape) && '+' !in n && '#' !in n
    ensures var ft, nt := EncodeLevel(f, true, escape), EncodeLevel(n, false, escape);
            && (f == "+" || f == n <==> ft == "*" || ft == nt)
            && ft != ">"
  {
    TokenOfLevel(f, escape);
    TokenOfLevel(n, escape);
    DecodeLevel(n, escape, "");
    if f != "+" { DecodeLevel(f, escape, ""); }
  }

  ghost predicate FilterLevels(f: seq<string>, escape: bool) { ValidLevels(f) && PlainLevels(f, escape) }

  ghost predicate NameLevels(n: seq<string>, escape: bool) {
    PlainLevels(n, escape) && forall i :: 0 <= i < |n| ==> '+' !in n[i] && '#' !in n[i]
  }

  lemma TailLevels(f: seq<string>, n: seq<string>, escape: bool)
    ensures |f| >= 1 && FilterLevels(f, escape) ==> FilterLevels(f[1..], escape)
    ensures |n| >= 1 && NameLevels(n, escape) ==> NameLevels(n[1..], escape)
  {
    if |f| >= 1 && FilterLevels(f, escape) {
      forall i | 0 <= i < |f[1..]| ensures f[1..][i] == f[i + 1] && PlainLevel(f[i + 1], escape) {}
    }
    if |n| >= 1 && NameLevels(n, escape) {
      forall i | 0 <= i < |n[1..]| ensures n[1..][i] == n[i + 1] && PlainLevel(n[i + 1], escape) {}
    }
  }

  lemma {:induction false} MatchTokens(f: seq<string>, n: seq<string>, escape: bool)
    requires |f| >= 1 && FilterLevels(f, escape) && NameLevels(n, escape)
    ensures var ft, nt := EncodeLevels(f, true, escape), EncodeLevels(n, false, escape);
            LevelsMatch(f, n) <==>
              NatsMatch(ft, nt) || (f[|f| - 1] == "#" && NatsMatch(ft[..|f| - 1], nt))
    decreases |f|
  {
    hide EncodeLevel, EncodeLevels, PlainLevel;
    var ft, nt := EncodeLevels(f, true, escape), EncodeLevels(n, false, escape);
    var k := |f| - 1;
    assert PlainLevel(f[0], escape);
    if f[0] == "#" {
      TokenOfLevel(f[0], escape);
      assert '#' in f[0] && k == 0;
      assert ft[..0] == [];
    } else if n == [] {
      TokenOfLevel(f[0], escape);
      if k > 0 { assert ft[..k][0] == ft[0]; }
    } else {
      assert PlainLevel(n[0], escape);
      FirstTokens(f[0], n[0], escape);
      if k == 0 {
        assert ft[1..] == [] && f[1..] == [] && ft[..0] == [];
      } else {
        var f', n' := f[1..], n[1..];
        TailLevels(f, n, escape);
        MatchTokens(f', n', escape);
        assert EncodeLevels(f', true, escape) == ft[1..] && EncodeLevels(n', false, escape) == nt[1..];
        assert ft[1..][..k - 1] == ft[..k][1..];
        assert ft[..k][0] == ft[0];
      }
    }
  }

  lemma NameHasNoWildcardLevel(name: string)
    requires '+' !in name && '#' !in name
    ensures forall i :: 0 <= i < |Split(name, '/')| ==> '+' !in Split(name, '/')[i] && '#' !in Split(name, '/')[i]
    decreases |name|
  {
    if name != "" {
      NameHasNoWildcardLevel(name[..|name| - 1]);
    }
  }

  lemma InnerIsPlain(filter: string, escape: bool)
    requires ValidFilter(filter, escape)
    ensures PlainLevels(Split(Inner(filter), '/'), escape)
  {
    var inner := Inner(filter);
    var r := SplitShared(filter).value;
    if IsShared(filter) {
      var at := |filter| - |inner|;
      assert filter[at..] == inner;
    }
    LevelsArePlain(inner, escape);
  }

  /** The tokens of a subscription's subjects and of a name's subject, under a prefix. */
  lemma PrefixedTokens(topic: string, prefix: string, wildcards: bool, escape: bool)
    requires prefix == "" || "" !in Split(prefix, '.')
    ensures var tokens := Split(Prefix(prefix, Subject(topic, wildcards, escape)), '.');
            && tokens == Front(prefix) + EncodeLevels(Split(topic, '/'), wildcards, escape)
            && "" !in tokens
  {
    SubjectTokens(topic, wildcards, escape);
    PrefixTokens(prefix, Subject(topic, wildcards, escape));
    TokensAreDotFree(Split(topic, '/'), wildcards, escape);
  }

  ghost function Front(prefix: string): seq<string> { if prefix == "" then [] else Split(prefix, '.') }

  /** A subject reaches one of the NATS subscriptions of a filter: its subject, or the parent of that. */
  predicate Received(full: string, subject: string) {
    || SubjectMatches(full, subject)
    || (ParentSubject(full).Some? && SubjectMatches(ParentSubject(full).value, subject))
  }

  /** The same, in tokens. */
  predicate EitherMatches(f: seq<string>, s: seq<string>)
    requires |f| >= 1
  {
    NatsMatch(f, s) || (|f| >= 2 && f[|f| - 1] == ">" && NatsMatch(f[..|f| - 1], s))
  }

  lemma ReceivedTokens(full: string, subject: string)
    requires "" !in Split(full, '.')
    ensures Received(full, subject) <==> EitherMatches(Split(full, '.'), Split(subject, '.'))
  {
    hide Split, NatsMatch, ParentSubject;
    ParentTokens(full);
  }

  lemma NothingMatchesNone(s: seq<string>)
    requires |s| >= 1
    ensures !NatsMatch([], s)
  {
  }

  /** A front common to both drops out, and a lone ">" needs no parent. */
  lemma EitherWithFront(front: seq<string>, ft: seq<string>, nt: seq<string>)
    requires ">" !in front && |ft| >= 1 && |nt| >= 1
    ensures EitherMatches(front + ft, front + nt)
       <==> NatsMatch(ft, nt) || (ft[|ft| - 1] == ">" && NatsMatch(ft[..|ft| - 1], nt))
  {
    hide NatsMatch;
    var whole := front + ft;
    assert whole[|whole| - 1] == ft[|ft| - 1];
    CommonFront(front, ft, nt);
    CommonFront(front, ft[..|ft| - 1], nt);
    DropLast(front, ft);
    if |whole| == 1 {
      assert ft[..|ft| - 1] == [];
      assert !NatsMatch([], nt) by { NothingMatchesNone(nt); }
    }
  }

  /**
    For every accepted filter and name, and every subject prefix: the NATS subscriptions a filter is given
    (its own subject and, for one ending in `#`, the parent) receive the name exactly when the filter
    matches it, apart from the `$` rule. So nothing is missed, and the check repeated on each message
    removes `$` topics and nothing else.
   */
  lemma NatsDeliversWhatMatches(filter: string, name: string, prefix: string, escape: bool)
    requires ValidFilter(filter, escape) && ValidName(name, escape)
    requires prefix == "" || (">" !in Split(prefix, '.') && "" !in Split(prefix, '.'))
    ensures var full := Prefix(prefix, FilterToSubject(filter, escape).value);
            var subject := Prefix(prefix, NameToSubject(name, escape).value);
            Matches(filter, name) <==> !DollarForbids(Inner(filter), name) && Received(full, subject)
  {
    hide Split, Join, EncodeLevels, NatsMatch, LevelsMatch, EncodeBytes, Received, EitherMatches;
    var inner := Inner(filter);
    var f, n := Split(inner, '/'), Split(name, '/');
    InnerIsPlain(filter, escape);
    LevelsArePlain(name, escape);
    NameHasNoWildcardLevel(name);
    MatchTokens(f, n, escape);
    var k := |f| - 1;
    assert PlainLevel(f[k], escape) && (f[k] == "#" || '#' !in f[k]);
    TokenOfLevel(f[k], escape);
    assert Received(Prefix(prefix, Subject(inner, true, escape)), Prefix(prefix, Subject(name, false, escape)))
      <==> EitherMatches(Front(prefix) + EncodeLevels(f, true, escape), Front(prefix) + EncodeLevels(n, false, escape))
        by {
      PrefixedTokens(inner, prefix, true, escape);
      PrefixedTokens(name, prefix, false, escape);
      ReceivedTokens(Prefix(prefix, Subject(inner, true, escape)), Prefix(prefix, Subject(name, false, escape)));
    }
    EitherWithFront(Front(prefix), EncodeLevels(f, true, escape), EncodeLevels(n, false, escape));
  }
}
