/**
 * The JSON path extractor and the repository's own JSON printer.
 *
 * The extractor works with cursors into one text; here they are indices, and a
 * read at the end of the text yields the terminating NUL. The first part states
 * each cursor loop as a function; `Extractor` holds the loops themselves. The
 * second part is the printer, and the law that ties the two together.
 */
module Json {
  import opened Bytes

  const QUOTE: char := '\"'
  const BACKSLASH: char := '\\'

  function CharAt(t: string, p: nat): char {
    if p < |t| then t[p] else '\0'
  }

  predicate IsSpace(c: char) {
    c == ' ' || c == '\n' || c == '\r' || c == '\t'
  }

  // ----------------------------------------------------------- the cursors

  function SkipSpace(t: string, p: nat, end: nat): (q: nat)
    requires p <= end <= |t|
    ensures p <= q <= end
    decreases end - p
  {
    if p < end && IsSpace(t[p]) then SkipSpace(t, p + 1, end) else p
  }

  /** The character an escape stands for. */
  function Unescape(c: char): Option<char> {
    if c == QUOTE then Some(QUOTE)
    else if c == BACKSLASH then Some(BACKSLASH)
    else if c == 'n' then Some('\n')
    else if c == 'r' then Some('\r')
    else if c == 't' then Some('\t')
    else None
  }

  /** The rest of a string literal: where it ends and what it adds to `out`. */
  function StringBody(t: string, p: nat, end: nat, out: string): (r: Option<(nat, string)>)
    requires p <= end <= |t|
    ensures r.Some? ==> p < r.value.0 <= end
    decreases end - p
  {
    if p >= end then None
    else if t[p] == QUOTE then Some((p + 1, out))
    else if t[p] == BACKSLASH then
      if p + 1 >= end || Unescape(t[p + 1]).None? then None
      else StringBody(t, p + 2, end, out + [Unescape(t[p + 1]).value])
    else StringBody(t, p + 1, end, out + [t[p]])
  }

  function ParseString(t: string, p: nat, end: nat): (r: Option<(nat, string)>)
    requires end <= |t|
    ensures r.Some? ==> p + 1 < r.value.0 <= end
  {
    if p >= end || t[p] != QUOTE then None else StringBody(t, p + 1, end, "")
  }

  /** From inside `depth` open braces, the position after the brace that closes the outermost. */
  function Scan(t: string, p: nat, end: nat, depth: int): (r: Option<nat>)
    requires p <= end <= |t|
    ensures r.Some? ==> p < r.value <= end
    decreases end - p
  {
    if p >= end then None
    else if t[p] == '{' then Scan(t, p + 1, end, depth + 1)
    else if t[p] == '}' then (if depth == 1 then Some(p + 1) else Scan(t, p + 1, end, depth - 1))
    else if t[p] == QUOTE then
      match ParseString(t, p, end)
      case None => None
      case Some(r) => Scan(t, r.0, end, depth)
    else Scan(t, p + 1, end, depth)
  }

  function LiteralEnd(t: string, p: nat, end: nat): (q: nat)
    requires p <= end <= |t|
    ensures p <= q <= end
    decreases end - p
  {
    if p < end && t[p] != ',' && t[p] != '}' then LiteralEnd(t, p + 1, end) else p
  }

  function ValueEnd(t: string, p: nat, end: nat): (r: Option<nat>)
    requires p <= end <= |t|
    ensures r.Some? ==> p <= r.value <= end
  {
    if CharAt(t, p) == '{' then Scan(t, p, end, 0)
    else if CharAt(t, p) == QUOTE then
      match ParseString(t, p, end)
      case None => None
      case Some(r) => Some(r.0)
    else Some(LiteralEnd(t, p, end))
  }

  /** One member: its key, and where its value starts and ends. */
  function Member(t: string, p: nat, end: nat): (r: Option<(string, nat, nat)>)
    requires p <= end <= |t|
    ensures r.Some? ==> p < r.value.1 <= r.value.2 <= end
  {
    if p >= end || t[p] != QUOTE then None
    else
      match ParseString(t, p, end)
      case None => None
      case Some(k) =>
        var c := SkipSpace(t, k.0, end);
        if c >= end || t[c] != ':' then None
        else
          var v := SkipSpace(t, c + 1, end);
          match ValueEnd(t, v, end)
          case None => None
          case Some(e) => Some((k.1, v, e))
  }

  function AfterComma(t: string, p: nat, end: nat): (q: nat)
    requires p <= end <= |t|
    ensures p <= q <= end
  {
    var s := SkipSpace(t, p, end);
    if s < end && t[s] == ',' then s + 1 else s
  }

  function Members(t: string, p: nat, end: nat, key: string): (r: Option<(nat, nat)>)
    requires p <= end <= |t|
    ensures r.Some? ==> r.value.0 <= r.value.1 <= end
    decreases end - p
  {
    var q := SkipSpace(t, p, end);
    match Member(t, q, end)
    case None => None
    case Some(m) =>
      if m.0 == key then Some((m.1, m.2)) else Members(t, AfterComma(t, m.2, end), end, key)
  }

  lemma MembersUnfold(t: string, p: nat, end: nat, key: string)
    requires p <= end <= |t|
    ensures var m := Member(t, SkipSpace(t, p, end), end);
            Members(t, p, end, key) ==
            if m.None? then None
            else if m.value.0 == key then Some((m.value.1, m.value.2))
            else Members(t, AfterComma(t, m.value.2, end), end, key)
  {}

  function FindKey(t: string, start: nat, end: nat, key: string): (r: Option<(nat, nat)>)
    requires start <= end <= |t|
    ensures r.Some? ==> r.value.0 <= r.value.1 <= end
  {
    var p := SkipSpace(t, start, end);
    if p >= end || t[p] != '{' then None else Members(t, p + 1, end, key)
  }

  // ---------------------------------------------------------------- paths

  /** Position of the first dot, or the length. */
  function FirstDot(s: string): (i: nat)
    ensures i <= |s| && (i < |s| ==> s[i] == '.') && forall j :: 0 <= j < i ==> s[j] != '.'
  {
    if s == "" || s[0] == '.' then 0
    else
      var r := FirstDot(s[1..]);
      assert forall j :: 1 <= j < r + 1 ==> s[j] == s[1..][j - 1];
      r + 1
  }

  function Segments(path: string): (r: seq<string>)
    ensures |r| > 0
    decreases |path|
  {
    var d := FirstDot(path);
    if d == |path| then [path] else [path[..d]] + Segments(path[d + 1..])
  }

  /** Follows keys through nested objects; the last one is looked up in the object reached. */
  function Navigate(t: string, start: nat, end: nat, keys: seq<string>): (r: Option<(nat, nat, nat)>)
    requires start <= end <= |t| && keys != []
    ensures r.Some? ==> r.value.0 <= r.value.1 <= r.value.2 <= |t|
    decreases |keys|
  {
    match FindKey(t, start, end, keys[0])
    case None => None
    case Some(v) =>
      if |keys| == 1 then Some((v.0, v.1, end))
      else if CharAt(t, v.0) != '{' then None
      else Navigate(t, v.0, v.1, keys[1..])
  }

  function StringAt(t: string, keys: seq<string>): Option<string>
    requires keys != []
  {
    match Navigate(t, 0, |t|, keys)
    case None => None
    case Some(v) =>
      if CharAt(t, v.0) != QUOTE then None
      else
        match ParseString(t, v.0, v.2)
        case None => None
        case Some(r) => Some(r.1)
  }

  function ObjectAt(t: string, keys: seq<string>): Option<(nat, nat)>
    requires keys != []
  {
    match Navigate(t, 0, |t|, keys)
    case None => None
    case Some(v) => if CharAt(t, v.0) != '{' then None else Some((v.0, v.1))
  }

  // ------------------------------------------------------------ the printer

  function Esc(c: char): string {
    if c == BACKSLASH then [BACKSLASH, BACKSLASH]
    else if c == QUOTE then [BACKSLASH, QUOTE]
    else if c == '\n' then [BACKSLASH, 'n']
    else if c == '\r' then [BACKSLASH, 'r']
    else if c == '\t' then [BACKSLASH, 't']
    else [c]
  }

  function Escape(s: string): string {
    if s == "" then "" else Esc(s[0]) + Escape(s[1..])
  }

  lemma JoinThree(a: string, b: string, c: string)
    ensures a + (b + c) == a + b + c
  {}

  lemma EscapeFrom(s: string, i: nat)
    requires i <= |s|
    ensures Escape(s[i..]) == if i == |s| then "" else Esc(s[i]) + Escape(s[i + 1..])
  {
    if i < |s| {
      assert s[i..][0] == s[i] && s[i..][1..] == s[i + 1..];
    }
  }

  lemma EscCases(c: char)
    ensures Esc(c) == match c
                      case '\\' => "\\\\"
                      case '\"' => "\\\""
                      case '\n' => "\\n"
                      case '\r' => "\\r"
                      case '\t' => "\\t"
                      case _ => [c]
  {}

  method EscapeJson(value: string) returns (escaped: string)
    ensures escaped == Escape(value)
  {
    hide Escape, Esc;
    escaped := "";
    assert value[0..] == value;
    for i := 0 to |value|
      invariant escaped + Escape(value[i..]) == Escape(value)
    {
      EscapeFrom(value, i);
      EscCases(value[i]);
      ghost var before := escaped;
      match value[i]
      case '\\' => escaped := escaped + "\\\\";
      case '\"' => escaped := escaped + "\\\"";
      case '\n' => escaped := escaped + "\\n";
      case '\r' => escaped := escaped + "\\r";
      case '\t' => escaped := escaped + "\\t";
      case c => escaped := escaped + [c];
      assert escaped == before + Esc(value[i]);
      JoinThree(before, Esc(value[i]), Escape(value[i + 1..]));
    }
    EscapeFrom(value, |value|);
  }

  /** Escaping works character by character, with exactly these five escapes. */
  lemma {:induction false} EscapeTable(a: string, c: char, b: string)
    ensures Escape(a + [c] + b) == Escape(a) + (match c
            case '\\' => "\\\\"
            case '\"' => "\\\""
            case '\n' => "\\n"
            case '\r' => "\\r"
            case '\t' => "\\t"
            case _ => [c]) + Escape(b)
    decreases |a|
  {
    hide Esc;
    if a == "" {
      EscCases(c);
      assert ([c] + b)[1..] == b && a + [c] + b == [c] + b;
    } else {
      EscapeTable(a[1..], c, b);
      assert (a + [c] + b)[1..] == a[1..] + [c] + b;
    }
  }

  // ------------------------------------------------- JSON text with layout

  /** A value, with the white space that stands around its parts. */
  datatype Value = Str(s: string) | Lit(text: string) | Obj(lead: string, fields: Fields)
  datatype Fields = Nil | Cons(key: string, value: Value, pad: Pad, rest: Fields)
  datatype Pad = Pad(beforeColon: string, afterColon: string, afterValue: string, afterComma: string)

  function Quoted(s: string): string {
    [QUOTE] + (Escape(s) + [QUOTE])
  }

  function Print(v: Value): string
    decreases v, 1
  {
    match v
    case Str(s) => Quoted(s)
    case Lit(text) => text
    case Obj(lead, fs) => "{" + (lead + (PrintFields(fs) + "}"))
  }

  function PrintFields(fs: Fields): string
    decreases fs, 1
  {
    match fs
    case Nil => ""
    case Cons(k, v, d, rest) => PrintMember(k, v, d) + PrintRest(d, rest)
  }

  function PrintMember(k: string, v: Value, d: Pad): string
    decreases v, 2
  {
    Quoted(k) + (d.beforeColon + (":" + (d.afterColon + (Print(v) + d.afterValue))))
  }

  function PrintRest(d: Pad, rest: Fields): string
    decreases rest, 2
  {
    if rest == Nil then "" else "," + (d.afterComma + PrintFields(rest))
  }

  /** White space of section 2 of RFC 8259. */
  predicate Blank(w: string) {
    forall i :: 0 <= i < |w| ==> w[i] == ' ' || w[i] == '\n' || w[i] == '\r' || w[i] == '\t'
  }

  predicate BlankPad(d: Pad) {
    Blank(d.beforeColon) && Blank(d.afterColon) && Blank(d.afterValue) && Blank(d.afterComma)
  }

  /** Any other value must not contain what delimits members, nor start with white space. */
  predicate GoodLit(text: string) {
    && (forall i :: 0 <= i < |text| ==> text[i] != ',' && text[i] != '{' && text[i] != '}' && text[i] != QUOTE)
    && (text != "" ==> !Blank([text[0]]))
  }

  predicate Good(v: Value) {
    match v
    case Str(_) => true
    case Lit(text) => GoodLit(text)
    case Obj(lead, fs) => Blank(lead) && GoodFields(fs)
  }

  predicate GoodFields(fs: Fields) {
    match fs
    case Nil => true
    case Cons(_, v, d, rest) => Good(v) && BlankPad(d) && GoodFields(rest)
  }

  /** The first member with the key. */
  function Lookup(fs: Fields, key: string): Option<Value> {
    match fs
    case Nil => None
    case Cons(k, v, _, rest) => if k == key then Some(v) else Lookup(rest, key)
  }

  function Keys(fs: Fields): seq<string> {
    if fs == Nil then [] else [fs.key] + Keys(fs.rest)
  }

  function ValueNumber(fs: Fields, i: nat): Value
    requires i < |Keys(fs)|
  {
    if i == 0 then fs.value else ValueNumber(fs.rest, i - 1)
  }

  /** Of members with one key the first counts, and only a key that occurs is found. */
  lemma {:induction false} FirstMemberWins(fs: Fields, key: string, i: nat)
    ensures Lookup(fs, key) == None <==> key !in Keys(fs)
    ensures i < |Keys(fs)| && Keys(fs)[i] == key && key !in Keys(fs)[..i] ==> Lookup(fs, key) == Some(ValueNumber(fs, i))
    decreases fs
  {
    match fs
    case Nil =>
    case Cons(k, v, _, rest) =>
      FirstMemberWins(rest, key, if i == 0 then 0 else i - 1);
      if 0 < i < |Keys(fs)| && Keys(fs)[i] == key && key !in Keys(fs)[..i] {
        assert Keys(fs)[..i] == [k] + Keys(rest)[..i - 1];
        assert k in Keys(fs)[..i];
      }
  }

  function Follow(fs: Fields, keys: seq<string>): Option<Value>
    requires keys != []
    decreases |keys|
  {
    match Lookup(fs, keys[0])
    case None => None
    case Some(v) =>
      if |keys| == 1 then Some(v)
      else if v.Obj? then Follow(v.fields, keys[1..])
      else None
  }

  // ------------------------------------- reading back what has been printed

  /** The text `q` stands at `p`. */
  ghost predicate At(t: string, p: nat, q: string) {
    p + |q| <= |t| && t[p..p + |q|] == q
  }

  lemma AtSplit(t: string, p: nat, a: string, b: string)
    ensures At(t, p, a + b) <==> At(t, p, a) && At(t, p + |a|, b)
  {
    if p + |a| + |b| <= |t| {
      assert t[p..p + |a| + |b|] == t[p..p + |a|] + t[p + |a|..p + |a| + |b|];
      if At(t, p, a + b) {
        assert t[p..p + |a|] == (a + b)[..|a|];
        assert t[p + |a|..p + |a| + |b|] == (a + b)[|a|..];
      }
    }
  }

  lemma AtChar(t: string, p: nat, c: char)
    ensures At(t, p, [c]) <==> p < |t| && t[p] == c
  {}

  lemma AtEach(t: string, p: nat, q: string)
    requires At(t, p, q)
    ensures forall i :: 0 <= i < |q| ==> t[p + i] == q[i]
  {
    forall i | 0 <= i < |q| ensures t[p + i] == q[i] {
      assert t[p..p + |q|][i] == t[p + i];
    }
  }

  lemma EscShape(c: char)
    ensures |Esc(c)| == 1 ==> Esc(c) == [c] && c != QUOTE && c != BACKSLASH
    ensures |Esc(c)| != 1 ==> |Esc(c)| == 2 && Esc(c)[0] == BACKSLASH && Unescape(Esc(c)[1]) == Some(c)
  {}

  /** A printed string body reads back as the string. */
  lemma {:induction false} StringBodyAt(t: string, p: nat, end: nat, s: string, out: string)
    requires end <= |t| && At(t, p, Escape(s) + [QUOTE]) && p + |Escape(s)| + 1 <= end
    ensures StringBody(t, p, end, out) == Some((p + |Escape(s)| + 1, out + s))
    decreases |s|
  {
    hide Esc, Unescape;
    if s == "" {
      assert t[p] == QUOTE by { assert t[p..p + 1] == [QUOTE]; }
      assert out + s == out;
    } else {
      var e, rest := Esc(s[0]), s[1..];
      EscShape(s[0]);
      assert Escape(s) + [QUOTE] == e + (Escape(rest) + [QUOTE]);
      AtSplit(t, p, e, Escape(rest) + [QUOTE]);
      assert t[p] == e[0] by { assert t[p..p + |e|][0] == t[p]; }
      if |e| == 2 {
        assert t[p + 1] == e[1] by { assert t[p..p + 2][1] == t[p + 1]; }
      }
      StringBodyAt(t, p + |e|, end, rest, out + [s[0]]);
      assert out + [s[0]] + rest == out + s;
    }
  }

  lemma ParseQuoted(t: string, p: nat, end: nat, s: string)
    requires end <= |t| && At(t, p, Quoted(s)) && p + |Quoted(s)| <= end
    ensures ParseString(t, p, end) == Some((p + |Quoted(s)|, s)) && t[p] == QUOTE
  {
    AtSplit(t, p, [QUOTE], Escape(s) + [QUOTE]);
    AtChar(t, p, QUOTE);
    StringBodyAt(t, p + 1, end, s, "");
    assert "" + s == s;
  }

  /** Characters other than a quote and a backslash are taken as they stand. */
  lemma {:induction false} PlainRun(t: string, p: nat, end: nat, a: string, out: string)
    requires At(t, p, a) && p + |a| <= end <= |t| && '\"' !in a && '\\' !in a
    ensures StringBody(t, p, end, out) == StringBody(t, p + |a|, end, out + a)
    decreases |a|
  {
    if a == "" {
      assert out + a == out;
    } else {
      AtSplit(t, p, [a[0]], a[1..]);
      assert a == [a[0]] + a[1..];
      AtChar(t, p, a[0]);
      PlainRun(t, p + 1, end, a[1..], out + [a[0]]);
      assert out + [a[0]] + a[1..] == out + a;
    }
  }

  /** A literal that the text cuts off, or that holds any other escape, is refused. */
  lemma BrokenLiteralRefused(t: string, p: nat, end: nat, a: string)
    requires p < end <= |t| && t[p] == '\"' && At(t, p + 1, a) && '\"' !in a && '\\' !in a
    ensures p + 1 + |a| == end ==> ParseString(t, p, end) == None
    ensures var q := p + 1 + |a|;
            q + 1 < end && t[q] == '\\' && t[q + 1] !in "\"\\nrt" ==> ParseString(t, p, end) == None
  {
    hide At;
    if p + 1 + |a| <= end {
      PlainRun(t, p + 1, end, a, "");
    }
  }

  /** White space is skipped whole, and nothing else is. */
  lemma {:induction false} SkipBlank(t: string, p: nat, end: nat, w: string)
    requires Blank(w) && At(t, p, w) && p + |w| <= end <= |t|
    ensures SkipSpace(t, p, end) == SkipSpace(t, p + |w|, end)
    ensures p + |w| < end && !Blank([t[p + |w|]]) ==> SkipSpace(t, p, end) == p + |w|
    decreases |w|
  {
    if w == "" {
      assert p < end ==> [t[p]][0] == t[p];
    } else {
      AtSplit(t, p, [w[0]], w[1..]);
      assert w == [w[0]] + w[1..];
      AtChar(t, p, w[0]);
      SkipBlank(t, p + 1, end, w[1..]);
    }
  }

  lemma NoBlank(c: char)
    ensures c == QUOTE || c == ':' || c == ',' || c == '{' || c == '}' ==> !Blank([c])
  {
    assert [c][0] == c;
  }

  /** Plain characters are passed over. */
  lemma {:induction false} ScanLit(t: string, p: nat, end: nat, depth: int, text: string)
    requires end <= |t| && At(t, p, text) && p + |text| <= end
    requires forall i :: 0 <= i < |text| ==> text[i] != '{' && text[i] != '}' && text[i] != QUOTE
    ensures Scan(t, p, end, depth) == Scan(t, p + |text|, end, depth)
    decreases |text|
  {
    if text != "" {
      assert text == [text[0]] + text[1..];
      AtSplit(t, p, [text[0]], text[1..]);
      AtChar(t, p, text[0]);
      ScanLit(t, p + 1, end, depth, text[1..]);
    }
  }

  lemma ScanQuoted(t: string, p: nat, end: nat, depth: int, s: string)
    requires end <= |t| && At(t, p, Quoted(s)) && p + |Quoted(s)| <= end
    ensures Scan(t, p, end, depth) == Scan(t, p + |Quoted(s)|, end, depth)
  {
    ParseQuoted(t, p, end, s);
  }

  lemma ScanChar(t: string, p: nat, end: nat, depth: int, c: char)
    requires p < end <= |t| && t[p] == c && c != '{' && c != '}' && c != QUOTE
    ensures Scan(t, p, end, depth) == Scan(t, p + 1, end, depth)
  {}

  /** Inside an object, a printed value is passed over whole. */
  lemma {:induction false} ScanValue(t: string, p: nat, end: nat, depth: int, v: Value)
    requires Good(v) && depth >= 1
    requires end <= |t| && At(t, p, Print(v)) && p + |Print(v)| <= end
    ensures Scan(t, p, end, depth) == Scan(t, p + |Print(v)|, end, depth)
    decreases v, 0
  {
    hide Scan, Quoted, PrintFields;
    match v
    case Str(s) => ScanQuoted(t, p, end, depth, s);
    case Lit(text) => ScanLit(t, p, end, depth, text);
    case Obj(lead, fs) =>
      ObjectParts(t, p, lead, fs);
      var first := p + 1 + |lead|;
      ScanBraces(t, p, end, depth);
      ScanLit(t, p + 1, end, depth + 1, lead);
      ScanFields(t, first, end, depth + 1, fs);
      ScanBraces(t, first + |PrintFields(fs)|, end, depth + 1);
  }

  lemma ObjectParts(t: string, p: nat, lead: string, fs: Fields)
    requires At(t, p, Print(Obj(lead, fs)))
    ensures var first := p + 1 + |lead|;
            && |Print(Obj(lead, fs))| == |lead| + |PrintFields(fs)| + 2
            && t[p] == '{' && At(t, p + 1, lead) && At(t, first, PrintFields(fs)) && t[first + |PrintFields(fs)|] == '}'
  {
    hide PrintFields, At;
    var body := PrintFields(fs);
    PrintObj(lead, fs);
    AtSplit(t, p, ['{'], lead + (body + ['}']));
    AtSplit(t, p + 1, lead, body + ['}']);
    AtSplit(t, p + 1 + |lead|, body, ['}']);
    AtChar(t, p, '{');
    AtChar(t, p + 1 + |lead| + |body|, '}');
  }

  lemma PrintObj(lead: string, fs: Fields)
    ensures Print(Obj(lead, fs)) == ['{'] + (lead + (PrintFields(fs) + ['}']))
  {
    hide PrintFields;
  }

  lemma ScanBraces(t: string, p: nat, end: nat, depth: int)
    requires p < end <= |t|
    ensures t[p] == '{' ==> Scan(t, p, end, depth) == Scan(t, p + 1, end, depth + 1)
    ensures t[p] == '}' ==> Scan(t, p, end, depth) == if depth == 1 then Some(p + 1) else Scan(t, p + 1, end, depth - 1)
  {}

  /** Where the parts of a printed member stand, counted from its key. */
  datatype Places = Places(colon: nat, value: nat, after: nat, end: nat)

  function PlacesOf(p: nat, k: string, v: Value, d: Pad): Places {
    var colon := p + |Quoted(k)| + |d.beforeColon|;
    var value := colon + 1 + |d.afterColon|;
    var after := value + |Print(v)|;
    Places(colon, value, after, after + |d.afterValue|)
  }

  lemma MemberParts(t: string, p: nat, k: string, v: Value, d: Pad)
    requires At(t, p, PrintMember(k, v, d))
    ensures var x := PlacesOf(p, k, v, d);
            && At(t, p, Quoted(k)) && At(t, p + |Quoted(k)|, d.beforeColon)
            && x.colon < |t| && t[x.colon] == ':' && At(t, x.colon + 1, d.afterColon)
            && At(t, x.value, Print(v)) && At(t, x.after, d.afterValue)
            && x.end == p + |PrintMember(k, v, d)| <= |t|
  {
    hide Quoted, Print, At, PrintMember;
    AtFits(t, p, PrintMember(k, v, d));
    var x, tail := PlacesOf(p, k, v, d), d.afterColon + (Print(v) + d.afterValue);
    PrintMemberIs(k, v, d);
    AtFour(t, p, Quoted(k), d.beforeColon, [':'], tail);
    AtChar(t, x.colon, ':');
    AtSplit(t, x.colon + 1, d.afterColon, Print(v) + d.afterValue);
    AtSplit(t, x.value, Print(v), d.afterValue);
  }

  lemma PrintMemberIs(k: string, v: Value, d: Pad)
    ensures PrintMember(k, v, d) == Quoted(k) + (d.beforeColon + ([':'] + (d.afterColon + (Print(v) + d.afterValue))))
  {
    hide Quoted, Print;
  }

  lemma AtFour(t: string, p: nat, a: string, b: string, c: string, d: string)
    requires At(t, p, a + (b + (c + d)))
    ensures At(t, p, a) && At(t, p + |a|, b) && At(t, p + |a| + |b|, c) && At(t, p + |a| + |b| + |c|, d)
  {
    hide At;
    AtSplit(t, p, a, b + (c + d));
    AtSplit(t, p + |a|, b, c + d);
    AtSplit(t, p + |a| + |b|, c, d);
  }

  lemma AtFits(t: string, p: nat, q: string)
    requires At(t, p, q)
    ensures p + |q| <= |t|
  {}

  /** The printed members, key by key. */
  lemma FieldsParts(t: string, p: nat, k: string, v: Value, d: Pad, rest: Fields)
    requires At(t, p, PrintFields(Cons(k, v, d, rest)))
    ensures var e := PlacesOf(p, k, v, d).end;
            && At(t, p, PrintMember(k, v, d)) && e == p + |PrintMember(k, v, d)|
            && (rest == Nil ==> p + |PrintFields(Cons(k, v, d, rest))| == e)
            && (rest != Nil ==>
                  var next := e + 1 + |d.afterComma|;
                  && e < |t| && t[e] == ',' && At(t, e + 1, d.afterComma) && At(t, next, PrintFields(rest))
                  && p + |PrintFields(Cons(k, v, d, rest))| == next + |PrintFields(rest)|)
  {
    hide Quoted, Print, PrintFields, At, PrintMember;
    PrintCons(k, v, d, rest);
    var m := PrintMember(k, v, d);
    if rest == Nil {
      AtSplit(t, p, m, "");
    } else {
      AtSplit(t, p, m, [','] + (d.afterComma + PrintFields(rest)));
      AtSplit(t, p + |m|, [','], d.afterComma + PrintFields(rest));
      AtSplit(t, p + |m| + 1, d.afterComma, PrintFields(rest));
      AtChar(t, p + |m|, ',');
    }
    MemberParts(t, p, k, v, d);
  }

  lemma PrintCons(k: string, v: Value, d: Pad, rest: Fields)
    ensures PrintFields(Cons(k, v, d, rest)) ==
            PrintMember(k, v, d) + if rest == Nil then "" else [','] + (d.afterComma + PrintFields(rest))
  {
    hide PrintMember;
  }

  lemma {:induction false} ScanFields(t: string, p: nat, end: nat, depth: int, fs: Fields)
    requires GoodFields(fs) && depth >= 1
    requires end <= |t| && At(t, p, PrintFields(fs)) && p + |PrintFields(fs)| <= end
    ensures Scan(t, p, end, depth) == Scan(t, p + |PrintFields(fs)|, end, depth)
    decreases fs, 1
  {
    hide Scan, Quoted, Print, PrintFields, PrintMember, At;
    match fs
    case Nil => NoFields();
    case Cons(k, v, d, rest) =>
      FieldsParts(t, p, k, v, d, rest);
      var e := PlacesOf(p, k, v, d).end;
      ScanMember(t, p, end, depth, k, v, d);
      if rest != Nil {
        ScanChar(t, e, end, depth, ',');
        ScanLit(t, e + 1, end, depth, d.afterComma);
        ScanFields(t, e + 1 + |d.afterComma|, end, depth, rest);
      }
  }

  lemma ScanMember(t: string, p: nat, end: nat, depth: int, k: string, v: Value, d: Pad)
    requires Good(v) && BlankPad(d) && depth >= 1 && At(t, p, PrintMember(k, v, d))
    requires PlacesOf(p, k, v, d).end <= end <= |t|
    ensures Scan(t, p, end, depth) == Scan(t, PlacesOf(p, k, v, d).end, end, depth)
    decreases v, 2
  {
    hide Scan, Quoted, Print, PrintMember, At;
    MemberParts(t, p, k, v, d);
    var x := PlacesOf(p, k, v, d);
    ScanQuoted(t, p, end, depth, k);
    ScanLit(t, p + |Quoted(k)|, end, depth, d.beforeColon);
    ScanChar(t, x.colon, end, depth, ':');
    ScanLit(t, x.colon + 1, end, depth, d.afterColon);
    ScanValue(t, x.value, end, depth, v);
    ScanLit(t, x.after, end, depth, d.afterValue);
  }

  lemma NoFields()
    ensures PrintFields(Nil) == ""
  {}

  // ------------------------------------------------------ finding a member

  lemma {:induction false} LiteralRun(t: string, p: nat, end: nat, q: nat)
    requires p <= q < end <= |t| && (t[q] == ',' || t[q] == '}')
    requires forall i :: p <= i < q ==> t[i] != ',' && t[i] != '}'
    ensures LiteralEnd(t, p, end) == q
    decreases q - p
  {
    if p < q {
      LiteralRun(t, p + 1, end, q);
    }
  }

  /** What follows a member's colon: where the cursor takes the value to start and to end. */
  ghost predicate Read(t: string, p: nat, end: nat, at: nat, e: nat, v: Value)
    requires p <= end <= |t|
  {
    var s := SkipSpace(t, p, end);
    && s < end && (v.Obj? <==> t[s] == '{') && (v.Str? <==> t[s] == QUOTE)
    && (!v.Lit? ==> s == at && ValueEnd(t, s, end) == Some(at + |Print(v)|))
    && (v.Lit? ==> ValueEnd(t, s, end) == Some(e))
  }

  /** A laid out value, followed by a comma or a closing brace, is read from its first character to its last. */
  lemma ValueRead(t: string, p: nat, end: nat, before: string, v: Value, after: string)
    requires Good(v) && Blank(before) && Blank(after) && At(t, p, before)
    requires At(t, p + |before|, Print(v)) && At(t, p + |before| + |Print(v)|, after)
    requires var e := p + |before| + |Print(v)| + |after|; e < end <= |t| && (t[e] == ',' || t[e] == '}')
    ensures Read(t, p, end, p + |before|, p + |before| + |Print(v)| + |after|, v)
  {
    hide Scan, Quoted, PrintFields, SkipSpace, Blank, At;
    var at := p + |before|;
    SkipBlank(t, p, end, before);
    match v
    case Str(s) =>
      ParseQuoted(t, at, end, s);
      NoBlank(t[at]);
    case Lit(text) =>
      LiteralRead(t, p, end, before, text, after);
    case Obj(lead, fs) =>
      ObjectParts(t, at, lead, fs);
      NoBlank(t[at]);
      ObjectEnd(t, at, end, lead, fs);
  }

  lemma ObjectEnd(t: string, p: nat, end: nat, lead: string, fs: Fields)
    requires Good(Obj(lead, fs)) && At(t, p, Print(Obj(lead, fs))) && p + |Print(Obj(lead, fs))| < end <= |t|
    ensures ValueEnd(t, p, end) == Some(p + |Print(Obj(lead, fs))|)
  {
    hide Scan, PrintFields;
    ObjectParts(t, p, lead, fs);
    var first := p + 1 + |lead|;
    ScanBraces(t, p, end, 0);
    ScanLit(t, p + 1, end, 1, lead);
    ScanFields(t, first, end, 1, fs);
    ScanBraces(t, first + |PrintFields(fs)|, end, 1);
  }

  lemma LiteralRead(t: string, p: nat, end: nat, before: string, text: string, after: string)
    requires GoodLit(text) && Blank(before) && Blank(after) && At(t, p, before)
    requires At(t, p + |before|, text) && At(t, p + |before| + |text|, after)
    requires var e := p + |before| + |text| + |after|; e < end <= |t| && (t[e] == ',' || t[e] == '}')
    ensures Read(t, p, end, p + |before|, p + |before| + |text| + |after|, Lit(text))
  {
    hide SkipSpace, At, Blank, GoodLit, LiteralEnd;
    var at, e := p + |before|, p + |before| + |text| + |after|;
    LiteralChars(t, at, text, after);
    NoBlank(t[e]);
    SkipBlank(t, p, end, before);
    SkipBlank(t, at + |text|, end, after);
    LiteralRun(t, if text == "" then e else at, end, e);
  }

  lemma LiteralChars(t: string, at: nat, text: string, after: string)
    requires GoodLit(text) && Blank(after) && At(t, at, text) && At(t, at + |text|, after)
    ensures forall i :: at <= i < at + |text| + |after| ==> t[i] != ',' && t[i] != '{' && t[i] != '}' && t[i] != QUOTE
    ensures text != "" ==> !Blank([t[at]])
  {
    hide At;
    AtFits(t, at + |text|, after);
    AtEach(t, at, text);
    AtEach(t, at + |text|, after);
    forall i | at <= i < at + |text| + |after| ensures t[i] != ',' && t[i] != '{' && t[i] != '}' && t[i] != QUOTE {
      if i < at + |text| {
        assert t[i] == text[i - at];
      } else {
        assert t[i] == after[i - at - |text|];
      }
    }
    if text != "" {
      assert t[at] == text[0];
    }
  }

  /** Where the first member with `key` has its value, counted from the first member. */
  function Offset(fs: Fields, key: string): nat
    requires Lookup(fs, key).Some?
  {
    var x := PlacesOf(0, fs.key, fs.value, fs.pad);
    if fs.key == key then x.value else x.end + 1 + |fs.pad.afterComma| + Offset(fs.rest, key)
  }

  lemma MemberAt(t: string, p: nat, end: nat, k: string, v: Value, d: Pad)
    requires Good(v) && BlankPad(d) && At(t, p, PrintMember(k, v, d))
    requires var e := PlacesOf(p, k, v, d).end; e < end <= |t| && (t[e] == ',' || t[e] == '}')
    ensures var x := PlacesOf(p, k, v, d);
            var m := Member(t, p, end);
            && SkipSpace(t, p, end) == p && m.Some? && m.value.0 == k
            && Found(t, m.value.1, m.value.2, x.value, v) && m.value.2 <= x.end
            && AfterComma(t, m.value.2, end) == if t[x.end] == ',' then x.end + 1 else x.end
  {
    hide Quoted, Print, ValueEnd, ParseString, SkipSpace, Blank, At, PrintMember;
    var x := PlacesOf(p, k, v, d);
    MemberParts(t, p, k, v, d);
    ParseQuoted(t, p, end, k);
    NoBlank(t[p]);
    NoBlank(t[x.colon]);
    NoBlank(t[x.end]);
    AtEmpty(t, p);
    SkipBlank(t, p, end, "");
    SkipBlank(t, p + |Quoted(k)|, end, d.beforeColon);
    ValueRead(t, x.colon + 1, end, d.afterColon, v, d.afterValue);
    AtEmpty(t, x.end);
    SkipBlank(t, x.end, end, "");
    SkipBlank(t, x.after, end, d.afterValue);
  }

  lemma AtEmpty(t: string, p: nat)
    requires p <= |t|
    ensures At(t, p, "") && Blank("")
  {}

  /** From `s` to `e` stands the value, if it is a string or an object, and no string or object otherwise. */
  ghost predicate Found(t: string, s: nat, e: nat, at: nat, v: Value) {
    && s < |t| && (v.Obj? <==> t[s] == '{') && (v.Str? <==> t[s] == QUOTE)
    && (!v.Lit? ==> s == at && e == at + |Print(v)|)
  }

  lemma {:induction false} MembersAt(t: string, p: nat, end: nat, lead: string, fs: Fields, key: string)
    requires GoodFields(fs) && Blank(lead) && At(t, p, lead) && At(t, p + |lead|, PrintFields(fs))
    requires var e := p + |lead| + |PrintFields(fs)|; e < end <= |t| && t[e] == '}'
    ensures var r := Members(t, p, end, key);
            match Lookup(fs, key)
            case None => r == None
            case Some(v) =>
              var at := p + |lead| + Offset(fs, key);
              && Good(v) && At(t, at, Print(v)) && at + |Print(v)| <= p + |lead| + |PrintFields(fs)|
              && r.Some? && Found(t, r.value.0, r.value.1, at, v)
    decreases fs
  {
    hide Quoted, Print, PrintFields, PrintMember, Member, Members, AfterComma, At, SkipSpace, Blank, Found;
    var q := p + |lead|;
    SkipBlank(t, p, end, lead);
    MembersUnfold(t, p, end, key);
    match fs
    case Nil =>
      NoFields();
      NoMember(t, q, end);
    case Cons(k, v, d, rest) =>
      FieldsParts(t, q, k, v, d, rest);
      MemberParts(t, q, k, v, d);
      MemberAt(t, q, end, k, v, d);
      var x := PlacesOf(q, k, v, d);
      if k != key {
        if rest == Nil {
          MembersUnfold(t, x.end, end, key);
          NoMember(t, x.end, end);
        } else {
          MembersAt(t, x.end + 1, end, d.afterComma, rest, key);
        }
      }
  }

  lemma NoMember(t: string, p: nat, end: nat)
    requires p < end <= |t| && t[p] == '}'
    ensures SkipSpace(t, p, end) == p && Member(t, p, end) == None
  {}

  /** In the text of an object, after white space, the extractor finds the first member with the key. */
  lemma FindKeyAt(t: string, start: nat, end: nat, before: string, lead: string, fs: Fields, key: string)
    requires Good(Obj(lead, fs)) && Blank(before) && At(t, start, before) && At(t, start + |before|, Print(Obj(lead, fs)))
    requires start + |before| + |Print(Obj(lead, fs))| <= end <= |t|
    ensures var r := FindKey(t, start, end, key);
            match Lookup(fs, key)
            case None => r == None
            case Some(v) =>
              var at := start + |before| + 1 + |lead| + Offset(fs, key);
              && Good(v) && At(t, at, Print(v)) && at + |Print(v)| < end
              && r.Some? && Found(t, r.value.0, r.value.1, at, v)
  {
    hide Quoted, PrintFields, Members, SkipSpace, Blank, At, Found, Offset, Lookup;
    var p := start + |before|;
    ObjectParts(t, p, lead, fs);
    NoBlank(t[p]);
    SkipBlank(t, start, end, before);
    MembersAt(t, p + 1, end, lead, fs, key);
  }

  // ------------------------------------------------------------ the main law

  /** Navigation in the text reaches exactly the text of the value that the tree lookup gives. */
  lemma {:induction false} NavigateAt(t: string, start: nat, end: nat, before: string, lead: string, fs: Fields, keys: seq<string>)
    requires Good(Obj(lead, fs)) && keys != [] && Blank(before) && At(t, start, before)
    requires At(t, start + |before|, Print(Obj(lead, fs))) && start + |before| + |Print(Obj(lead, fs))| <= end <= |t|
    ensures var r := Navigate(t, start, end, keys);
            match Follow(fs, keys)
            case None => r == None
            case Some(v) =>
              && r.Some? && Good(v) && Found(t, r.value.0, r.value.1, r.value.0, v)
              && (!v.Lit? ==> At(t, r.value.0, Print(v)) && r.value.1 < r.value.2)
    decreases |keys|
  {
    hide Print, FindKey, Lookup, Offset, GoodFields, Blank, At;
    FindKeyAt(t, start, end, before, lead, fs, keys[0]);
    if Lookup(fs, keys[0]).Some? {
      var v := Lookup(fs, keys[0]).value;
      if |keys| > 1 && v.Obj? {
        var at := FindKey(t, start, end, keys[0]).value.0;
        AtEmpty(t, at);
        NavigateAt(t, at, at + |Print(v)|, "", v.lead, v.fields, keys[1..]);
      }
    }
  }

  /** A document: an object with white space before and after it. */
  function Document(before: string, lead: string, fs: Fields, after: string): string {
    before + (Print(Obj(lead, fs)) + after)
  }

  lemma DocumentAt(before: string, lead: string, fs: Fields, after: string)
    ensures var t := Document(before, lead, fs, after);
            At(t, 0, before) && At(t, |before|, Print(Obj(lead, fs))) && |before| + |Print(Obj(lead, fs))| <= |t|
  {
    hide Print;
    var t := Document(before, lead, fs, after);
    assert At(t, 0, t) by { assert t[0..|t|] == t; }
    AtSplit(t, 0, before, Print(Obj(lead, fs)) + after);
    AtSplit(t, |before|, Print(Obj(lead, fs)), after);
  }

  /**
   * `getString` on a document is the tree lookup, for every path and however the
   * document is laid out with blanks, newlines, carriage returns and tabs.
   */
  lemma GetStringLaidOut(before: string, lead: string, fs: Fields, after: string, keys: seq<string>)
    requires Blank(before) && Good(Obj(lead, fs)) && keys != []
    ensures StringAt(Document(before, lead, fs, after), keys) ==
            match Follow(fs, keys)
            case Some(Str(s)) => Some(s)
            case _ => None
  {
    hide Print, Follow, Navigate, Quoted, Good, Blank, Document, At;
    var t := Document(before, lead, fs, after);
    DocumentAt(before, lead, fs, after);
    NavigateAt(t, 0, |t|, before, lead, fs, keys);
    if Follow(fs, keys).Some? {
      var v, r := Follow(fs, keys).value, Navigate(t, 0, |t|, keys).value;
      if v.Str? {
        PrintStr(v.s);
        ParseQuoted(t, r.0, r.2, v.s);
      }
    }
  }

  lemma PrintStr(s: string)
    ensures Print(Str(s)) == Quoted(s)
  {}

  /** `getObjectRange` on a document delimits exactly the text of the object the path leads to. */
  lemma GetObjectLaidOut(before: string, lead: string, fs: Fields, after: string, keys: seq<string>)
    requires Blank(before) && Good(Obj(lead, fs)) && keys != []
    ensures var t := Document(before, lead, fs, after);
            var r := ObjectAt(t, keys);
            match Follow(fs, keys)
            case Some(Obj(l, inner)) => r.Some? && t[r.value.0..r.value.1] == Print(Obj(l, inner))
            case _ => r == None
  {
    hide Print, Follow, Navigate, Quoted, Good, Blank, Document;
    var t := Document(before, lead, fs, after);
    DocumentAt(before, lead, fs, after);
    NavigateAt(t, 0, |t|, before, lead, fs, keys);
  }

  /** The same for an object printed without white space before it. */
  lemma GetStringIsLookup(lead: string, fs: Fields, keys: seq<string>)
    requires Good(Obj(lead, fs)) && keys != []
    ensures StringAt(Print(Obj(lead, fs)), keys) ==
            match Follow(fs, keys)
            case Some(Str(s)) => Some(s)
            case _ => None
  {
    hide Print, Follow, Good, StringAt;
    GetStringLaidOut("", lead, fs, "", keys);
    assert Document("", lead, fs, "") == Print(Obj(lead, fs));
  }

  lemma GetObjectIsLookup(lead: string, fs: Fields, keys: seq<string>)
    requires Good(Obj(lead, fs)) && keys != []
    ensures var t := Print(Obj(lead, fs));
            var r := ObjectAt(t, keys);
            match Follow(fs, keys)
            case Some(Obj(l, inner)) => r.Some? && t[r.value.0..r.value.1] == Print(Obj(l, inner))
            case _ => r == None
  {
    hide Print, Follow, Good, ObjectAt;
    GetObjectLaidOut("", lead, fs, "", keys);
    assert Document("", lead, fs, "") == Print(Obj(lead, fs));
  }

  // --------------------------------------------------- a comma inside a value

  /**
   * A value that is no string or object ends at its first comma. Unless a quote
   * comes next the search ends there: an array of two numbers hides every member
   * that follows it.
   */
  lemma CommaHidesRest(t: string, p: nat, end: nat, k: string, d: Pad, text: string, c: char, key: string)
    requires GoodLit(text) && BlankPad(d) && c != '\"' && !Blank([c]) && key != k
    requires At(t, p, PrintMember(k, Lit(text), d) + ([','] + (d.afterComma + [c])))
    requires p + |PrintMember(k, Lit(text), d)| + |d.afterComma| + 2 <= end <= |t|
    ensures Members(t, p, end, key) == None
  {
    hide Quoted, Print, PrintMember, Member, Members, AfterComma, At, SkipSpace, Blank, Found, GoodLit;
    var m, e := PrintMember(k, Lit(text), d), PlacesOf(p, k, Lit(text), d).end;
    AtSplit(t, p, m, [','] + (d.afterComma + [c]));
    MemberParts(t, p, k, Lit(text), d);
    AtSplit(t, e, [','], d.afterComma + [c]);
    AtChar(t, e, ',');
    AtSplit(t, e + 1, d.afterComma, [c]);
    AtChar(t, e + 1 + |d.afterComma|, c);
    MemberAt(t, p, end, k, Lit(text), d);
    MembersUnfold(t, p, end, key);
    MembersUnfold(t, e + 1, end, key);
    SkipBlank(t, e + 1, end, d.afterComma);
    NoKey(t, e + 1 + |d.afterComma|, end);
  }

  lemma NoKey(t: string, p: nat, end: nat)
    requires p < end <= |t| && t[p] != QUOTE
    ensures Member(t, p, end) == None
  {}

  /** A text that does not consist of white space alone: white space, and another character. */
  lemma {:induction false} FirstOther(s: string) returns (w: string, c: char, x: string)
    requires !Blank(s)
    ensures s == w + ([c] + x) && Blank(w) && !Blank([c])
    decreases |s|
  {
    if Blank([s[0]]) {
      assert [s[0]][0] == s[0];
      assert !Blank(s[1..]) by {
        var i :| 0 <= i < |s| && !(s[i] == ' ' || s[i] == '\n' || s[i] == '\r' || s[i] == '\t');
        assert s[1..][i - 1] == s[i];
      }
      var v;
      v, c, x := FirstOther(s[1..]);
      w := [s[0]] + v;
      assert s == [s[0]] + s[1..];
    } else {
      w, c, x := "", s[0], s[1..];
    }
  }

  /** A number, a word, or an array of those: no strings or objects in it. */
  predicate Flat(text: string) {
    && (forall i :: 0 <= i < |text| ==> text[i] != '{' && text[i] != '}' && text[i] != '\"')
    && (text != "" ==> !Blank([text[0]]))
  }

  lemma {:induction false} FirstComma(text: string) returns (a: string, b: string)
    requires ',' in text
    ensures text == a + ([','] + b) && ',' !in a
    decreases |text|
  {
    if text[0] == ',' {
      a, b := "", text[1..];
    } else {
      a, b := FirstComma(text[1..]);
      a := [text[0]] + a;
      assert text == [text[0]] + text[1..];
    }
  }

  /** The same text, cut at the comma inside the value. */
  lemma CutAtComma(k: string, d: Pad, rest: Fields, a: string, b: string, w: string, c: char, x: string)
    requires rest != Nil && b + (d.afterValue + [',']) == w + ([c] + x)
    ensures exists more: string ::
              PrintFields(Cons(k, Lit(a + ([','] + b)), d, rest))
              == (PrintMember(k, Lit(a), Pad(d.beforeColon, d.afterColon, "", w)) + ([','] + (w + [c]))) + more
  {
    hide Quoted, PrintFields, PrintMember;
    var text, d', tail := a + ([','] + b), Pad(d.beforeColon, d.afterColon, "", w), d.afterComma + PrintFields(rest);
    PrintCons(k, Lit(text), d, rest);
    PrintMemberIs(k, Lit(text), d);
    PrintMemberIs(k, Lit(a), d');
    var q := Quoted(k) + (d.beforeColon + ([':'] + d.afterColon));
    assert PrintMember(k, Lit(text), d) == q + (text + d.afterValue);
    assert PrintMember(k, Lit(a), d') == q + a;
    Recut(q, a, b, d.afterValue, tail, w, c, x);
  }

  lemma Recut(q: string, a: string, b: string, v: string, tail: string, w: string, c: char, x: string)
    requires b + (v + [',']) == w + ([c] + x)
    ensures q + ((a + ([','] + b)) + v) + ([','] + tail) == ((q + a) + ([','] + (w + [c]))) + (x + tail)
  {
    assert q + ((a + ([','] + b)) + v) + ([','] + tail) == (q + a) + ([','] + ((b + (v + [','])) + tail));
    assert ((q + a) + ([','] + (w + [c]))) + (x + tail) == (q + a) + ([','] + ((w + ([c] + x)) + tail));
  }

  lemma NotBlankEnd(s: string, v: string)
    ensures !Blank(s + (v + [',']))
  {
    var t := s + (v + [',']);
    assert t[|t| - 1] == ',';
  }

  /**
   * Behind a member whose value is a number, a word or an array of those, a later
   * member is found if and only if that value has no comma in it.
   */
  lemma LaterFoundExactlyWhen(t: string, p: nat, end: nat, k: string, text: string, d: Pad, rest: Fields, key: string)
    requires Flat(text) && BlankPad(d) && GoodFields(rest) && k != key && Lookup(rest, key).Some?
    requires At(t, p, PrintFields(Cons(k, Lit(text), d, rest)))
    requires var e := p + |PrintFields(Cons(k, Lit(text), d, rest))|; e < end <= |t| && t[e] == '}'
    ensures Members(t, p, end, key).Some? <==> ',' !in text
  {
    hide Members, PrintFields, PrintMember, At, Blank;
    var fs := Cons(k, Lit(text), d, rest);
    AtFits(t, p, PrintFields(fs));
    if ',' !in text {
      AtEmpty(t, p);
      MembersAt(t, p, end, "", fs, key);
    } else {
      var a, b := FirstComma(text);
      NotBlankEnd(b, d.afterValue);
      var w, c, x := FirstOther(b + (d.afterValue + [',']));
      NoQuoteIn(text, a, b, d.afterValue, w, c, x);
      CutAtComma(k, d, rest, a, b, w, c, x);
      var d' := Pad(d.beforeColon, d.afterColon, "", w);
      var front := PrintMember(k, Lit(a), d') + ([','] + (w + [c]));
      var more :| PrintFields(fs) == front + more;
      AtSplit(t, p, front, more);
      assert Blank("") by { AtEmpty(t, p); }
      CommaHidesRest(t, p, end, k, d', a, c, key);
    }
  }

  lemma NoQuoteIn(text: string, a: string, b: string, v: string, w: string, c: char, x: string)
    requires Flat(text) && text == a + ([','] + b) && ',' !in a && Blank(v) && b + (v + [',']) == w + ([c] + x)
    ensures GoodLit(a) && c != '\"'
  {
    assert (b + (v + [',']))[|w|] == c;
    assert forall i :: 0 <= i < |b| ==> b[i] == text[|a| + 1 + i];
    assert forall i :: 0 <= i < |a| ==> a[i] == text[i];
  }

  lemma AtOne(t: string, q: string)
    requires |q| < |t| && t[1..1 + |q|] == q
    ensures At(t, 1, q)
  {}

  /** For instance the second member of `{"a":[1,2],"b":"x"}` is not found. */
  lemma ArrayHidesMember()
    ensures var t := "{\"a\":[1,2],\"b\":\"x\"}"; StringAt(t, ["b"]) == None
  {
    hide Members, At, PrintMember;
    var t := "{\"a\":[1,2],\"b\":\"x\"}";
    var text := "[1";
    assert Escape("a") == "a" by {
      assert Plain("a");
      EscapePlain("a");
    }
    assert PrintMember("a", Lit(text), NO_PAD) == "\"a\":[1" by {
      PrintMemberIs("a", Lit(text), NO_PAD);
    }
    AtOne(t, "\"a\":[1" + ([','] + ("" + ['2'])));
    assert !Blank(['2']) by { assert ['2'][0] == '2'; }
    CommaHidesRest(t, 1, |t|, "a", NO_PAD, text, '2', "b");
  }

  // ----------------------------------------------------------------- paths

  function Join(keys: seq<string>): string
    requires keys != []
  {
    if |keys| == 1 then keys[0] else keys[0] + "." + Join(keys[1..])
  }

  predicate DotFree(keys: seq<string>) {
    forall i :: 0 <= i < |keys| ==> '.' !in keys[i]
  }

  lemma {:induction false} FirstDotAt(k: string, rest: string)
    requires '.' !in k && (rest == "" || rest[0] == '.')
    ensures FirstDot(k + rest) == |k|
    decreases |k|
  {
    if k == "" {
      assert k + rest == rest;
    } else {
      assert (k + rest)[1..] == k[1..] + rest;
      FirstDotAt(k[1..], rest);
    }
  }

  /** A dotted path of dot-free keys splits into those keys. */
  lemma {:induction false} SegmentsOfJoin(keys: seq<string>)
    requires keys != [] && DotFree(keys)
    ensures Segments(Join(keys)) == keys
    decreases |keys|
  {
    var k := keys[0];
    if |keys| == 1 {
      FirstDotAt(k, "");
      assert k + "" == k;
    } else {
      var rest := Join(keys[1..]);
      FirstDotAt(k, "." + rest);
      assert k + ("." + rest) == Join(keys);
      assert Join(keys)[..|k|] == k && Join(keys)[|k| + 1..] == rest;
      assert DotFree(keys[1..]);
      SegmentsOfJoin(keys[1..]);
    }
  }

  lemma SegmentsStep(path: string, seg: nat)
    requires seg <= |path|
    ensures var dot := seg + FirstDot(path[seg..]);
            && seg <= dot <= |path|
            && Segments(path[seg..])[0] == path[seg..dot]
            && (dot == |path| ==> |Segments(path[seg..])| == 1)
            && (dot < |path| ==> Segments(path[seg..])[1..] == Segments(path[dot + 1..]) && |Segments(path[seg..])| > 1)
  {
    hide FirstDot;
    var tail, d := path[seg..], FirstDot(path[seg..]);
    assert tail[..d] == path[seg..seg + d];
    if d < |tail| {
      assert tail[d + 1..] == path[seg + d + 1..];
    }
  }

  // ------------------------------------------------------------- the loops

  /** One text to extract from; the cursors of the source are indices into it. */
  class Extractor {
    const text: string

    constructor (text: string)
      ensures this.text == text
    {
      this.text := text;
    }

    method SkipWhitespace(p: nat, end: nat) returns (q: nat)
      requires p <= end <= |text|
      ensures q == SkipSpace(text, p, end) && p <= q <= end
      ensures forall i :: p <= i < q ==> text[i] in " \n\r\t"
      ensures q < end ==> text[q] !in " \n\r\t"
    {
      q := p;
      while q < end && (text[q] == ' ' || text[q] == '\n' || text[q] == '\r' || text[q] == '\t')
        invariant p <= q <= end && SkipSpace(text, q, end) == SkipSpace(text, p, end)
        invariant forall i :: p <= i < q ==> text[i] in " \n\r\t"
      {
        q := q + 1;
      }
    }

    method ParseJsonString(p: nat, end: nat) returns (r: Option<(nat, string)>)
      requires end <= |text|
      ensures r == ParseString(text, p, end)
    {
      if p >= end || text[p] != '\"' {
        return None;
      }
      var q, out := p + 1, "";
      while q < end
        invariant p < q <= end && StringBody(text, q, end, out) == ParseString(text, p, end)
      {
        var c := text[q];
        q := q + 1;
        if c == '\"' {
          return Some((q, out));
        }
        if c == '\\' {
          if q >= end {
            return None;
          }
          var esc := text[q];
          q := q + 1;
          match esc
          case '\"' => out := out + ['\"'];
          case '\\' => out := out + ['\\'];
          case 'n' => out := out + ['\n'];
          case 'r' => out := out + ['\r'];
          case 't' => out := out + ['\t'];
          case _ => return None;
        } else {
          out := out + [c];
        }
      }
      return None;
    }

    /** Matching brace by counting, jumping over strings. */
    method MatchBraces(p: nat, end: nat) returns (r: Option<nat>)
      requires p <= end <= |text| && CharAt(text, p) == '{'
      ensures r == Scan(text, p, end, 0)
    {
      hide ParseString;
      var q, depth := p, 0;
      while q < end
        invariant p <= q <= end && (if q == p then depth == 0 else depth >= 1)
        invariant Scan(text, q, end, depth) == Scan(text, p, end, 0)
        decreases end - q
      {
        if text[q] == '{' {
          depth := depth + 1;
        } else if text[q] == '}' {
          depth := depth - 1;
          if depth == 0 {
            return Some(q + 1);
          }
        } else if text[q] == '\"' {
          var after := ParseJsonString(q, end);
          if after.None? {
            return None;
          }
          q := after.value.0;
          continue;
        }
        q := q + 1;
      }
      return None;
    }

    method EndOfValue(p: nat, end: nat) returns (r: Option<nat>)
      requires p <= end <= |text|
      ensures r == ValueEnd(text, p, end)
    {
      hide Scan, ParseString;
      var first := CharAt(text, p);
      if first == '{' {
        r := MatchBraces(p, end);
      } else if first == '\"' {
        var after := ParseJsonString(p, end);
        if after.None? {
          return None;
        }
        r := Some(after.value.0);
      } else {
        var q := p;
        while q < end && text[q] != ',' && text[q] != '}'
          invariant p <= q <= end && LiteralEnd(text, q, end) == LiteralEnd(text, p, end)
        {
          q := q + 1;
        }
        r := Some(q);
      }
    }

    /** Value of the first member with `key` in the object that starts at `start`. */
    method FindKeyInObject(start: nat, end: nat, key: string) returns (r: Option<(nat, nat)>)
      requires start <= end <= |text|
      ensures r == FindKey(text, start, end, key)
    {
      hide ValueEnd, ParseString, SkipSpace, Members;
      var p := SkipWhitespace(start, end);
      if p >= end || text[p] != '{' {
        return None;
      }
      p := p + 1;
      while true
        invariant p <= end && Members(text, p, end, key) == FindKey(text, start, end, key)
        decreases end - p
      {
        MembersUnfold(text, p, end, key);
        p := SkipWhitespace(p, end);
        if p >= end {
          return None;
        }
        if text[p] == '}' {
          return None;
        }
        if text[p] != '\"' {
          return None;
        }
        var k := ParseJsonString(p, end);
        if k.None? {
          return None;
        }
        p := SkipWhitespace(k.value.0, end);
        if p >= end || text[p] != ':' {
          return None;
        }
        p := SkipWhitespace(p + 1, end);
        var valStart := p;
        var valEnd := EndOfValue(p, end);
        if valEnd.None? {
          return None;
        }
        if k.value.1 == key {
          return Some((valStart, valEnd.value));
        }
        p := SkipWhitespace(valEnd.value, end);
        if p < end && text[p] == ',' {
          p := p + 1;
        }
      }
    }

    /** Walks the dotted path: the value of its last key and the object that was searched for it. */
    method FollowPath(path: string) returns (r: Option<(nat, nat, nat)>)
      ensures r == Navigate(text, 0, |text|, Segments(path))
    {
      hide FindKey, Segments, FirstDot;
      var curStart: nat, curEnd: nat, seg: nat := 0, |text|, 0;
      assert path[0..] == path;
      while true
        invariant curStart <= curEnd <= |text| && seg <= |path|
        invariant Navigate(text, curStart, curEnd, Segments(path[seg..])) == Navigate(text, 0, |text|, Segments(path))
        decreases |path| - seg
      {
        var dot := seg + FirstDot(path[seg..]);
        var key := path[seg..dot];
        SegmentsStep(path, seg);
        var v := FindKeyInObject(curStart, curEnd, key);
        if v.None? {
          return None;
        }
        if dot == |path| {
          return Some((v.value.0, v.value.1, curEnd));
        }
        if CharAt(text, v.value.0) != '{' {
          return None;
        }
        curStart, curEnd, seg := v.value.0, v.value.1, dot + 1;
      }
    }

    method GetString(path: string) returns (r: Option<string>)
      ensures r == StringAt(text, Segments(path))
    {
      hide Navigate, Segments, ParseString;
      var v := FollowPath(path);
      if v.None? || CharAt(text, v.value.0) != '\"' {
        return None;
      }
      var s := ParseJsonString(v.value.0, v.value.2);
      if s.None? {
        return None;
      }
      return Some(s.value.1);
    }

    method GetObjectRange(path: string) returns (r: Option<(nat, nat)>)
      ensures r == ObjectAt(text, Segments(path))
    {
      hide Navigate, Segments;
      var v := FollowPath(path);
      if v.None? || CharAt(text, v.value.0) != '{' {
        return None;
      }
      return Some((v.value.0, v.value.1));
    }
  }

  // --------------------------------------------- the registration payload

  const LAST_ACTIVE: string := "14/02/2026 20:17:23"

  /** No white space at all. */
  const NO_PAD: Pad := Pad("", "", "", "")

  /** A member printed as the payload builder writes it. */
  function Tight(key: string, value: Value, rest: Fields): Fields {
    Cons(key, value, NO_PAD, rest)
  }

  function PayloadTree(deviceId: string, mac: string, ip: string): Fields {
    Tight("device_id", Str(deviceId), Tight("device_name", Str(deviceId), Tight("description", Str(deviceId),
    Tight("last_active", Str(LAST_ACTIVE), Tight("state", Str("online"), Tight("mac_address", Str(mac), Tight("ip_address", Str(ip),
    Tight("protocol", Str("MQTT"), Tight("platform", Str("ESP32"), Tight("capabilities", Lit("[]"), Tight("properties", Lit("[]"), Nil)))))))))))
  }

  lemma PrintTight(k: string, v: Value, rest: Fields)
    ensures PrintFields(Tight(k, v, rest)) ==
            Quoted(k) + ([':'] + Print(v)) + if rest == Nil then "" else [','] + PrintFields(rest)
  {
    hide Quoted, Print, PrintFields;
    PrintCons(k, v, NO_PAD, rest);
    assert "" + PrintFields(rest) == PrintFields(rest);
    assert PrintMember(k, v, NO_PAD) == Quoted(k) + ([':'] + Print(v));
  }

  /** The text `"k":"safe",` of one string member. */
  function StringMember(k: string, safe: string): string {
    "\"" + k + "\":\"" + safe + "\","
  }

  /** No character that `escapeJson` changes. */
  predicate Plain(s: string) {
    forall i :: 0 <= i < |s| ==> s[i] != BACKSLASH && s[i] != QUOTE && s[i] != '\n' && s[i] != '\r' && s[i] != '\t'
  }

  lemma {:induction false} EscapePlain(s: string)
    requires Plain(s)
    ensures Escape(s) == s
    decreases |s|
  {
    if s != "" {
      EscapePlain(s[1..]);
      assert s == [s[0]] + s[1..];
    }
  }

  /** `written` followed by the members still to come is `whole`; it stays so when a member is written out. */
  lemma AddString(whole: string, written: string, k: string, s: string, rest: Fields) returns (next: Fields)
    requires Plain(k) && rest != Nil && written + PrintFields(Tight(k, Str(s), rest)) == whole
    ensures written + StringMember(k, Escape(s)) + PrintFields(rest) == whole && next == rest
  {
    hide Escape, PrintFields;
    PrintTight(k, Str(s), rest);
    EscapePlain(k);
    assert StringMember(k, Escape(s)) + PrintFields(rest) == Quoted(k) + ([':'] + Print(Str(s))) + ([','] + PrintFields(rest));
    assert written + (StringMember(k, Escape(s)) + PrintFields(rest)) == written + StringMember(k, Escape(s)) + PrintFields(rest);
    next := rest;
  }

  /** The text `"k":[]` of a member that is an empty list. */
  function EmptyListMember(k: string): string {
    "\"" + k + "\":[]"
  }

  /** As AddString, for the two members that end the object. */
  lemma AddLast(whole: string, written: string, k: string, last: string)
    requires Plain(k) && Plain(last)
    requires written + PrintFields(Tight(k, Lit("[]"), Tight(last, Lit("[]"), Nil))) == whole
    ensures written + EmptyListMember(k) + "," + EmptyListMember(last) == whole
  {
    hide Escape, PrintFields, Quoted, EmptyListMember;
    var rest := Tight(last, Lit("[]"), Nil);
    PrintTight(last, Lit("[]"), Nil);
    PrintTight(k, Lit("[]"), rest);
    QuotedList(k);
    QuotedList(last);
    assert written + EmptyListMember(k) + "," + EmptyListMember(last) == written + (EmptyListMember(k) + ([','] + EmptyListMember(last)));
  }

  lemma QuotedList(k: string)
    requires Plain(k)
    ensures Quoted(k) + ([':'] + "[]") == EmptyListMember(k)
  {
    hide Escape;
    EscapePlain(k);
    assert [QUOTE] + (k + [QUOTE]) + ([':'] + "[]") == "\"" + k + "\":[]";
  }

  lemma PayloadWordsPlain()
    ensures Plain("device_id") && Plain("device_name") && Plain("description") && Plain("last_active") && Plain("state")
    ensures Plain("mac_address") && Plain("ip_address") && Plain("protocol") && Plain("platform")
    ensures Plain("capabilities") && Plain("properties")
    ensures Plain(LAST_ACTIVE) && Plain("online") && Plain("MQTT") && Plain("ESP32")
  {}

  lemma PrintObject(fs: Fields)
    ensures Print(Obj("", fs)) == "{" + PrintFields(fs) + "}"
  {
    hide PrintFields;
    assert "" + (PrintFields(fs) + "}") == PrintFields(fs) + "}";
    assert "{" + (PrintFields(fs) + "}") == "{" + PrintFields(fs) + "}";
  }

  method BuildPayload(deviceId: string, macAddress: string, ipAddress: string) returns (payload: string)
    ensures payload == Print(Obj("", PayloadTree(deviceId, macAddress, ipAddress)))
  {
    hide Escape, Print, PrintFields, StringMember, EmptyListMember, Quoted, Plain;
    PayloadWordsPlain();
    var safeDeviceId := EscapeJson(deviceId);
    var safeMac := EscapeJson(macAddress);
    var safeIp := EscapeJson(ipAddress);
    ghost var f := PayloadTree(deviceId, macAddress, ipAddress);
    ghost var whole := "{" + PrintFields(f);
    payload := "{";
    payload := payload + StringMember("device_id", safeDeviceId);
    f := AddString(whole, "{", "device_id", deviceId, f.rest);
    ghost var p := payload;
    payload := payload + StringMember("device_name", safeDeviceId);
    f := AddString(whole, p, "device_name", deviceId, f.rest);
    p := payload;
    payload := payload + StringMember("description", safeDeviceId);
    f := AddString(whole, p, "description", deviceId, f.rest);
    p := payload;
    EscapePlain(LAST_ACTIVE);
    payload := payload + StringMember("last_active", LAST_ACTIVE);
    f := AddString(whole, p, "last_active", LAST_ACTIVE, f.rest);
    p := payload;
    EscapePlain("online");
    payload := payload + StringMember("state", "online");
    f := AddString(whole, p, "state", "online", f.rest);
    p := payload;
    payload := payload + StringMember("mac_address", safeMac);
    f := AddString(whole, p, "mac_address", macAddress, f.rest);
    p := payload;
    payload := payload + StringMember("ip_address", safeIp);
    f := AddString(whole, p, "ip_address", ipAddress, f.rest);
    p := payload;
    EscapePlain("MQTT");
    payload := payload + StringMember("protocol", "MQTT");
    f := AddString(whole, p, "protocol", "MQTT", f.rest);
    p := payload;
    EscapePlain("ESP32");
    payload := payload + StringMember("platform", "ESP32");
    f := AddString(whole, p, "platform", "ESP32", f.rest);
    p := payload;
    payload := payload + EmptyListMember("capabilities") + ",";
    payload := payload + EmptyListMember("properties");
    AddLast(whole, p, "capabilities", "properties");
    payload := payload + "}";
    PrintObject(PayloadTree(deviceId, macAddress, ipAddress));
  }

  /** Every string field of the payload is read back unchanged, whatever the arguments. */
  lemma PayloadReadsBack(deviceId: string, mac: string, ip: string)
    ensures var t := Print(Obj("", PayloadTree(deviceId, mac, ip)));
            && StringAt(t, Segments("device_id")) == StringAt(t, Segments("device_name")) == Some(deviceId)
            && StringAt(t, Segments("description")) == Some(deviceId)
            && StringAt(t, Segments("mac_address")) == Some(mac) && StringAt(t, Segments("ip_address")) == Some(ip)
            && StringAt(t, Segments("last_active")) == Some(LAST_ACTIVE) && StringAt(t, Segments("state")) == Some("online")
            && StringAt(t, Segments("protocol")) == Some("MQTT") && StringAt(t, Segments("platform")) == Some("ESP32")
            && StringAt(t, Segments("capabilities")) == None
  {
    hide StringAt, Print, Segments, PayloadTree, Lookup, GoodFields;
    var f := PayloadTree(deviceId, mac, ip);
    PayloadGood(deviceId, mac, ip);
    KeysDotFree();
    ReadField(f, "device_id");
    ReadField(f, "device_name");
    ReadField(f, "description");
    ReadField(f, "last_active");
    ReadField(f, "state");
    ReadField(f, "mac_address");
    ReadField(f, "ip_address");
    ReadField(f, "protocol");
    ReadField(f, "platform");
    ReadField(f, "capabilities");
  }

  lemma ReadField(fs: Fields, k: string)
    requires GoodFields(fs) && '.' !in k
    ensures StringAt(Print(Obj("", fs)), Segments(k)) ==
            match Lookup(fs, k)
            case Some(Str(s)) => Some(s)
            case _ => None
  {
    hide StringAt, Print, Segments, Lookup, GoodFields;
    SegmentsOfJoin([k]);
    GetStringIsLookup("", fs, [k]);
  }

  lemma KeysDotFree()
    ensures '.' !in "device_id" && '.' !in "device_name" && '.' !in "description" && '.' !in "last_active" && '.' !in "state"
    ensures '.' !in "mac_address" && '.' !in "ip_address" && '.' !in "protocol" && '.' !in "platform" && '.' !in "capabilities"
  {}

  /** Members of one length are told apart by a character. */
  lemma KeysDiffer()
    ensures "device_name" != "description" && "device_name" != "last_active" && "device_name" != "mac_address"
    ensures "description" != "last_active" && "description" != "mac_address" && "last_active" != "mac_address"
    ensures "protocol" != "platform"
  {
    assert "device_name"[2] == 'v' && "description"[2] == 's' && "last_active"[0] == 'l' && "mac_address"[0] == 'm';
    assert "device_name"[0] == 'd' && "description"[0] == 'd' && "protocol"[1] == 'r' && "platform"[1] == 'l';
  }

  lemma LookupNext(fs: Fields, key: string)
    requires fs.Cons? && fs.key != key
    ensures Lookup(fs, key) == Lookup(fs.rest, key)
  {}

  lemma LookupFirst(fs: Fields)
    requires fs.Cons?
    ensures Lookup(fs, fs.key) == Some(fs.value)
  {}

  lemma PayloadGood(deviceId: string, mac: string, ip: string)
    ensures GoodFields(PayloadTree(deviceId, mac, ip))
    ensures var f := PayloadTree(deviceId, mac, ip);
            && Lookup(f, "device_id") == Some(Str(deviceId)) && Lookup(f, "device_name") == Some(Str(deviceId))
            && Lookup(f, "description") == Some(Str(deviceId)) && Lookup(f, "last_active") == Some(Str(LAST_ACTIVE))
            && Lookup(f, "state") == Some(Str("online")) && Lookup(f, "mac_address") == Some(Str(mac))
            && Lookup(f, "ip_address") == Some(Str(ip)) && Lookup(f, "protocol") == Some(Str("MQTT"))
            && Lookup(f, "platform") == Some(Str("ESP32")) && Lookup(f, "capabilities") == Some(Lit("[]"))
  {
    hide Lookup;
    KeysDiffer();
    var f1 := PayloadTree(deviceId, mac, ip);
    var f2 := f1.rest;
    var f3 := f2.rest;
    var f4 := f3.rest;
    var f5 := f4.rest;
    var f6 := f5.rest;
    var f7 := f6.rest;
    var f8 := f7.rest;
    var f9 := f8.rest;
    var f10 := f9.rest;
    assert GoodFields(f10) && GoodFields(f9) && GoodFields(f8) && GoodFields(f7) && GoodFields(f6);
    assert GoodFields(f5) && GoodFields(f4) && GoodFields(f3) && GoodFields(f2);
    LookupFirst(f1);
    LookupFirst(f2); LookupNext(f1, "device_name");
    LookupFirst(f3); LookupNext(f1, "description"); LookupNext(f2, "description");
    LookupFirst(f4); LookupNext(f1, "last_active"); LookupNext(f2, "last_active"); LookupNext(f3, "last_active");
    LookupFirst(f5); LookupNext(f1, "state"); LookupNext(f2, "state"); LookupNext(f3, "state"); LookupNext(f4, "state");
    LookupFirst(f6); LookupNext(f1, "mac_address"); LookupNext(f2, "mac_address"); LookupNext(f3, "mac_address"); LookupNext(f4, "mac_address"); LookupNext(f5, "mac_address");
    LookupFirst(f7); LookupNext(f1, "ip_address"); LookupNext(f2, "ip_address"); LookupNext(f3, "ip_address"); LookupNext(f4, "ip_address"); LookupNext(f5, "ip_address"); LookupNext(f6, "ip_address");
    LookupFirst(f8); LookupNext(f1, "protocol"); LookupNext(f2, "protocol"); LookupNext(f3, "protocol"); LookupNext(f4, "protocol"); LookupNext(f5, "protocol"); LookupNext(f6, "protocol"); LookupNext(f7, "protocol");
    LookupFirst(f9); LookupNext(f1, "platform"); LookupNext(f2, "platform"); LookupNext(f3, "platform"); LookupNext(f4, "platform"); LookupNext(f5, "platform"); LookupNext(f6, "platform"); LookupNext(f7, "platform"); LookupNext(f8, "platform");
    LookupFirst(f10); LookupNext(f1, "capabilities"); LookupNext(f2, "capabilities"); LookupNext(f3, "capabilities"); LookupNext(f4, "capabilities"); LookupNext(f5, "capabilities"); LookupNext(f6, "capabilities"); LookupNext(f7, "capabilities"); LookupNext(f8, "capabilities"); LookupNext(f9, "capabilities");
  }
}
