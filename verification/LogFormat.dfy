/** Compiling an access-log format into a list of arguments. */
module LogFormat {
  import opened FilterTypes

  datatype Tag =
    | Src | Proxy | DsSport | UsSport | Ts | Ua | Meth | Uri | Proto | Status | Ref | Host | UsHdr | DsHdr | Rule

  const TAGS: seq<Tag> :=
    [Src, Proxy, DsSport, UsSport, Ts, Ua, Meth, Uri, Proto, Status, Ref, Host, UsHdr, DsHdr, Rule]

  function Name(t: Tag): string {
    match t
    case Src => "SRC"
    case Proxy => "PROXY"
    case DsSport => "DS_SPORT"
    case UsSport => "US_SPORT"
    case Ts => "TS"
    case Ua => "UA"
    case Meth => "METH"
    case Uri => "URI"
    case Proto => "PROTO"
    case Status => "STATUS"
    case Ref => "REF"
    case Host => "HOST"
    case UsHdr => "US_HDR"
    case DsHdr => "DS_HDR"
    case Rule => "RULE"
  }

  predicate TakesHeader(t: Tag) { t == UsHdr || t == DsHdr }

  function Text(t: Tag): (r: string)
    ensures |r| >= 2
  {
    "{" + Name(t) + (if TakesHeader(t) then "}:" else "}")
  }

  function Upper(c: char): char {
    if 'a' <= c <= 'z' then ((c as int) - ('a' as int) + ('A' as int)) as char else c
  }

  function Uppers(s: string): (r: string)
    ensures |r| == |s| && forall i :: 0 <= i < |s| ==> r[i] == Upper(s[i])
  {
    if s == [] then [] else [Upper(s[0])] + Uppers(s[1..])
  }

  /** The tag stands at the start of s, in any letter case. */
  predicate Starts(s: string, t: Tag) {
    |Text(t)| <= |s| && Uppers(s[..|Text(t)|]) == Text(t)
  }

  predicate Plain(s: string) {
    forall i :: 0 <= i < |s| ==> s[i] != '}' && Upper(s[i]) == s[i]
  }

  lemma NamesArePlain(t: Tag)
    ensures Plain(Name(t))
  {}

  /** A name belongs to one tag. */
  function TagNamed(name: string): Option<Tag> {
    if name == "SRC" then Some(Src) else if name == "PROXY" then Some(Proxy)
    else if name == "DS_SPORT" then Some(DsSport) else if name == "US_SPORT" then Some(UsSport)
    else if name == "TS" then Some(Ts) else if name == "UA" then Some(Ua)
    else if name == "METH" then Some(Meth) else if name == "URI" then Some(Uri)
    else if name == "PROTO" then Some(Proto) else if name == "STATUS" then Some(Status)
    else if name == "REF" then Some(Ref) else if name == "HOST" then Some(Host)
    else if name == "US_HDR" then Some(UsHdr) else if name == "DS_HDR" then Some(DsHdr)
    else if name == "RULE" then Some(Rule) else None
  }

  lemma NamesAreDistinct(t: Tag)
    ensures TagNamed(Name(t)) == Some(t)
  {
    assert "SRC"[0] == 'S' && "URI"[0] == 'U' && "REF"[0] == 'R';
    assert "DS_SPORT"[0] == 'D' && "US_SPORT"[0] == 'U' && "US_HDR"[1] == 'S' && "DS_HDR"[0] == 'D' &&
           "STATUS"[1] == 'T';
    assert "TS"[0] == 'T' && "UA"[0] == 'U' && "METH"[0] == 'M' && "HOST"[0] == 'H' && "RULE"[0] == 'R';
    assert "PROXY"[3] == 'X' && "PROTO"[3] == 'T' && "US_HDR"[0] == 'U' && "STATUS"[0] == 'S';
  }

  /** Tags are prefix-free: at most one of them stands at the start of a text, so the first
      one found is the only one. */
  lemma {:induction false} OnlyOneStarts(s: string, a: Tag, b: Tag)
    requires Starts(s, a) && Starts(s, b)
    ensures a == b
  {
    BraceAt(s, a);
    BraceAt(s, b);
    assert |Name(a)| == |Name(b)|;
    NameAt(s, a);
    NameAt(s, b);
    NamesAreDistinct(a);
    NamesAreDistinct(b);
  }

  /** The first closing brace ends the name. */
  lemma BraceAt(s: string, t: Tag)
    requires Starts(s, t)
    ensures |Name(t)| + 1 < |s| && s[|Name(t)| + 1] == '}' && forall i :: 0 <= i <= |Name(t)| ==> s[i] != '}'
  {
    NamesArePlain(t);
    hide Name;
    var brace := |Name(t)| + 1;
    assert Upper(s[brace]) == Text(t)[brace] == '}';
    assert Upper(s[0]) == Text(t)[0] == '{';
    forall i | 1 <= i < brace ensures s[i] != '}' {
      assert Upper(s[i]) == Text(t)[i] == Name(t)[i - 1];
    }
  }

  lemma NameAt(s: string, t: Tag)
    requires Starts(s, t)
    ensures |Name(t)| + 1 <= |s| && Uppers(s[1..|Name(t)| + 1]) == Name(t)
  {
    hide Name;
    forall i | 0 <= i < |Name(t)| ensures Upper(s[i + 1]) == Name(t)[i] {
      assert Upper(s[i + 1]) == Text(t)[i + 1];
    }
  }

  /** The lookup, in table order. */
  function Search(s: string, i: nat): Option<Tag>
    requires i <= |TAGS|
    decreases |TAGS| - i
  {
    if i == |TAGS| then None else if Starts(s, TAGS[i]) then Some(TAGS[i]) else Search(s, i + 1)
  }

  function TagAt(s: string): Option<Tag> { Search(s, 0) }

  lemma {:induction false} SearchFinds(s: string, i: nat, t: Tag)
    requires i <= |TAGS| && Starts(s, t) && t in TAGS[i..]
    ensures Search(s, i) == Some(t)
    decreases |TAGS| - i
  {
    if Starts(s, TAGS[i]) {
      OnlyOneStarts(s, TAGS[i], t);
    } else {
      SearchFinds(s, i + 1, t);
    }
  }

  lemma {:induction false} SearchStarts(s: string, i: nat)
    requires i <= |TAGS|
    ensures Search(s, i).Some? ==> Starts(s, Search(s, i).value)
    decreases |TAGS| - i
  {
    if i < |TAGS| && !Starts(s, TAGS[i]) { SearchStarts(s, i + 1); }
  }

  lemma AllTags(t: Tag)
    ensures t in TAGS
  {
    assert TAGS[0] == Src && TAGS[1] == Proxy && TAGS[2] == DsSport && TAGS[3] == UsSport && TAGS[4] == Ts &&
           TAGS[5] == Ua;
    assert TAGS[6] == Meth && TAGS[7] == Uri && TAGS[8] == Proto && TAGS[9] == Status && TAGS[10] == Ref &&
           TAGS[11] == Host;
    assert TAGS[12] == UsHdr && TAGS[13] == DsHdr && TAGS[14] == Rule;
  }

  /** The lookup finds a tag if and only if that tag stands there. */
  lemma TagAtIff(s: string, t: Tag)
    ensures TagAt(s) == Some(t) <==> Starts(s, t)
  {
    if Starts(s, t) {
      AllTags(t);
      assert TAGS[0..] == TAGS;
      SearchFinds(s, 0, t);
    }
    SearchStarts(s, 0);
  }

  method ArgTypeFromString(s: string) returns (t: Option<Tag>)
    ensures t == TagAt(s)
  {
    for i := 0 to |TAGS|
      invariant TagAt(s) == Search(s, i)
    {
      if Starts(s, TAGS[i]) { return Some(TAGS[i]); }
    }
    return None;
  }

  datatype Arg = TagArg(tag: Tag) | HeaderArg(tag: Tag, name: string) | Literal(text: string)

  /** A header tag without its quoted name is rejected. At a brace with no tag the compiler
      tests for a negative tag type, which an enumeration without negative values need not
      have; if it has none, an uninitialised length is used. At a name without its closing
      quote it reads past the end of the format. */
  datatype Result = Compiled(args: seq<Arg>) | Rejected | UnknownTag | Overrun

  /** The position of the first quote. */
  function Quote(s: string): (q: nat)
    ensures q <= |s| && (forall i :: 0 <= i < q ==> s[i] != '\'') && (q < |s| ==> s[q] == '\'')
  {
    if s == [] || s[0] == '\'' then 0 else Quote(s[1..]) + 1
  }

  function AddChar(args: seq<Arg>, c: char): seq<Arg> {
    var last := |args| - 1;
    if args != [] && args[last].Literal? then args[..last] + [Literal(args[last].text + [c])] else args + [Literal([c])]
  }

  function Parse(s: string, args: seq<Arg>): Result
    decreases |s|
  {
    if s == [] then Compiled(args)
    else if s[0] != '{' then Parse(s[1..], AddChar(args, s[0]))
    else
      match TagAt(s)
      case None => UnknownTag
      case Some(t) =>
        SearchStarts(s, 0);
        var rest := s[|Text(t)|..];
        if TakesHeader(t) then ParseName(rest, args, t) else Parse(rest, args + [TagArg(t)])
  }

  /** The rest of a header tag. */
  function ParseName(rest: string, args: seq<Arg>, t: Tag): Result
    decreases |rest|
  {
    if rest == [] || rest[0] != '\'' then Rejected
    else
      var q := Quote(rest[1..]);
      if q == |rest| - 1 then Overrun else Parse(rest[q + 2..], args + [HeaderArg(t, rest[1..q + 1])])
  }

  // What a format spells.

  function PrintArg(a: Arg): string {
    match a
    case TagArg(t) => Text(t)
    case HeaderArg(t, name) => Text(t) + ['\''] + name + ['\'']
    case Literal(text) => text
  }

  function Print(args: seq<Arg>): string {
    if args == [] then [] else PrintArg(args[0]) + Print(args[1..])
  }

  predicate GoodArg(a: Arg) {
    match a
    case TagArg(t) => !TakesHeader(t)
    case HeaderArg(t, name) => TakesHeader(t) && '\'' !in name
    case Literal(text) => text != [] && '{' !in text
  }

  /** What compilation produces: proper arguments, no two literals next to each other. */
  ghost predicate Normal(args: seq<Arg>) {
    (forall i :: 0 <= i < |args| ==> GoodArg(args[i])) &&
    (forall i :: 0 <= i < |args| - 1 ==> !(args[i].Literal? && args[i + 1].Literal?))
  }

  /** A piece of a format spells an argument: its tag in any letter case, and a literal or a
      quoted header name exactly. */
  predicate SpellsArg(piece: string, a: Arg) {
    match a
    case TagArg(t) => Starts(piece, t) && |piece| == |Text(t)|
    case HeaderArg(t, name) => Starts(piece, t) && piece[|Text(t)|..] == ['\''] + name + ['\'']
    case Literal(text) => piece == text
  }

  /** A format spells a list, piece by piece. */
  predicate Spells(s: string, args: seq<Arg>)
    decreases |args|
  {
    if args == [] then s == []
    else
      var n := |PrintArg(args[0])|;
      n <= |s| && SpellsArg(s[..n], args[0]) && Spells(s[n..], args[1..])
  }

  lemma SpellsOne(piece: string, a: Arg)
    requires SpellsArg(piece, a)
    ensures |piece| == |PrintArg(a)|
  {}

  lemma {:induction false} SpellsAppend(s: string, args: seq<Arg>, piece: string, a: Arg)
    requires Spells(s, args) && SpellsArg(piece, a)
    ensures Spells(s + piece, args + [a])
    decreases |args|
  {
    hide Name, Text, Starts, Uppers, SpellsArg, PrintArg;
    SpellsOne(piece, a);
    if args == [] {
      assert s + piece == piece && args + [a] == [a];
      assert piece[..|piece|] == piece && [a][1..] == [] && piece[|piece|..] == [];
    } else {
      var n := |PrintArg(args[0])|;
      assert (args + [a])[1..] == args[1..] + [a];
      assert (s + piece)[..n] == s[..n] && (s + piece)[n..] == s[n..] + piece;
      SpellsAppend(s[n..], args[1..], piece, a);
    }
  }

  lemma LiteralSpells(piece: string, text: string)
    ensures SpellsArg(piece, Literal(text)) <==> piece == text
  {}

  /** One more character on the last literal. */
  lemma {:induction false} SpellsGrown(s: string, args: seq<Arg>, c: char)
    requires Spells(s, args) && args != [] && args[|args| - 1].Literal?
    ensures Spells(s + [c], args[..|args| - 1] + [Literal(args[|args| - 1].text + [c])])
    decreases |args|
  {
    hide Name, Text, Starts, Uppers, SpellsArg, PrintArg;
    var n, last := |PrintArg(args[0])|, |args| - 1;
    var grown := args[..last] + [Literal(args[last].text + [c])];
    if last == 0 {
      assert s[n..] == [] && s[..n] == s;
      LiteralSpells(s, args[0].text);
      var empty: string, none: seq<Arg> := [], [];
      assert Spells(empty, none);
      SpellsAppend(empty, none, s + [c], Literal(s + [c])) by { LiteralSpells(s + [c], s + [c]); }
      assert empty + (s + [c]) == s + [c] && none + [Literal(s + [c])] == grown;
    } else {
      assert (s + [c])[..n] == s[..n] && (s + [c])[n..] == s[n..] + [c];
      assert grown[1..] == args[1..][..last - 1] + [Literal(args[last].text + [c])];
      SpellsGrown(s[n..], args[1..], c);
    }
  }

  lemma {:induction false} AddCharSpells(s: string, args: seq<Arg>, c: char)
    requires Normal(args) && Spells(s, args) && c != '{'
    ensures Normal(AddChar(args, c)) && Spells(s + [c], AddChar(args, c))
  {
    hide Spells, SpellsArg;
    var last := |args| - 1;
    if args != [] && args[last].Literal? {
      SpellsGrown(s, args, c);
      assert GoodArg(args[last]);
    } else {
      LiteralSpells([c], [c]);
      SpellsAppend(s, args, [c], Literal([c]));
    }
  }

  lemma StartsLong(s: string, t: Tag)
    requires Starts(s, t)
    ensures |Text(t)| <= |s|
  {}

  lemma NormalTag(args: seq<Arg>, a: Arg)
    requires Normal(args) && GoodArg(a) && !a.Literal?
    ensures Normal(args + [a])
  {}

  /** A tag, with the quoted name behind it if it takes one, spells its argument. */
  lemma TagSpells(s: string, t: Tag, q: nat, a: Arg)
    requires Starts(s, t) && |Text(t)| + q <= |s|
    requires var rest := s[|Text(t)|..];
             if TakesHeader(t) then
               q >= 2 && rest[0] == '\'' && rest[q - 1] == '\'' && a == HeaderArg(t, rest[1..q - 1])
             else q == 0 && a == TagArg(t)
    ensures SpellsArg(s[..|Text(t)| + q], a)
  {
    hide Name, Text;
    var n := |Text(t)|;
    var piece, rest := s[..n + q], s[n..];
    assert piece[..n] == s[..n] && piece[n..] == rest[..q];
    if TakesHeader(t) { assert rest[..q] == ['\''] + rest[1..q - 1] + ['\'']; }
  }

  // Where a format stops being a spelling.

  /** A brace with no tag. */
  ghost predicate NoTagAt(rest: string) {
    rest != [] && rest[0] == '{' && forall t :: !Starts(rest, t)
  }

  /** A header tag that is not followed by a quote. */
  ghost predicate NoNameAt(rest: string) {
    exists t :: TakesHeader(t) && Starts(rest, t) &&
      (|rest| == |Text(t)| || rest[|Text(t)|] != '\'')
  }

  /** A header tag and a quote that is never closed. */
  ghost predicate NoQuoteAt(rest: string) {
    exists t :: TakesHeader(t) && Starts(rest, t) && |rest| > |Text(t)| && rest[|Text(t)|] == '\'' &&
      '\'' !in rest[|Text(t)| + 1..]
  }

  /** The format spells a normal list up to position k. */
  ghost predicate SpelledTo(format: string, k: nat, args: seq<Arg>) {
    k <= |format| && Normal(args) && Spells(format[..k], args)
  }

  /** What an outcome says of the list read by then and of the rest of the format. */
  ghost predicate StopsWith(outcome: Result, read: seq<Arg>, rest: string) {
    match outcome
    case Compiled(args) => args == read && rest == []
    case UnknownTag => NoTagAt(rest)
    case Rejected => NoNameAt(rest)
    case Overrun => NoQuoteAt(rest)
  }

  /** Whatever the outcome, what was read up to there spells the list. */
  lemma {:induction false} ParsedSpells(s: string, args: seq<Arg>, done: string) returns (read: seq<Arg>, k: nat)
    requires Normal(args) && Spells(done, args)
    ensures k <= |s| && Normal(read) && Spells(done + s[..k], read) && StopsWith(Parse(s, args), read, s[k..])
    decreases |s|
  {
    hide Spells, SpellsArg, Starts, Text, Name, NoTagAt, NoNameAt, NoQuoteAt, Normal, Quote;
    if s == [] {
      read, k := args, 0;
      assert done + s[..0] == done;
    } else if s[0] != '{' {
      AddCharSpells(done, args, s[0]);
      read, k := ParsedSpells(s[1..], AddChar(args, s[0]), done + [s[0]]);
      assert done + [s[0]] + s[1..][..k] == done + s[..k + 1] && s[1..][k..] == s[k + 1..];
      k := k + 1;
    } else if TagAt(s).None? {
      read, k := args, 0;
      assert done + s[..0] == done && s[0..] == s;
      NoTag(s);
    } else {
      read, k := TagParsed(s, args, done);
    }
  }

  lemma NoTag(s: string)
    requires s != [] && s[0] == '{' && TagAt(s).None?
    ensures NoTagAt(s)
  {
    forall t ensures !Starts(s, t) { TagAtIff(s, t); }
  }

  lemma Nameless(s: string, t: Tag)
    requires TakesHeader(t) && Starts(s, t) && (|s| == |Text(t)| || s[|Text(t)|] != '\'')
    ensures NoNameAt(s)
  {}

  lemma Unquoted(s: string, t: Tag)
    requires TakesHeader(t) && Starts(s, t) && |s| > |Text(t)| && s[|Text(t)|] == '\''
    requires Quote(s[|Text(t)| + 1..]) == |s| - |Text(t)| - 1
    ensures NoQuoteAt(s)
  {
    hide Name, Text, Starts;
    assert '\'' !in s[|Text(t)| + 1..];
  }

  lemma {:induction false} TagParsed(s: string, args: seq<Arg>, done: string) returns (read: seq<Arg>, k: nat)
    requires Normal(args) && Spells(done, args) && s != [] && s[0] == '{' && TagAt(s).Some?
    ensures k <= |s| && Normal(read) && Spells(done + s[..k], read) && StopsWith(Parse(s, args), read, s[k..])
    decreases |s|, 0
  {
    hide Spells, SpellsArg, Starts, Text, Name, NoTagAt, NoNameAt, NoQuoteAt, Normal, Quote, AddChar, Parse, ParseName;
    var t := TagAt(s).value;
    TagAtIff(s, t);
    StartsLong(s, t);
    assert s[0..] == s;
    TagTurn(s, 0, args, t);
    var n := |Text(t)|;
    var rest := s[n..];
    if TakesHeader(t) && (rest == [] || rest[0] != '\'') {
      read, k := args, 0;
      assert done + s[..0] == done;
      NameMissing(rest, args, t);
      Nameless(s, t);
    } else if TakesHeader(t) && Quote(rest[1..]) == |rest| - 1 {
      read, k := args, 0;
      assert done + s[..0] == done;
      NameTurn(s, n, args, t);
      assert rest[1..] == s[n + 1..];
      Unquoted(s, t);
    } else {
      if TakesHeader(t) { NameTurn(s, n, args, t); }
      var q := if TakesHeader(t) then Quote(rest[1..]) + 2 else 0;
      var a := if TakesHeader(t) then HeaderArg(t, rest[1..q - 1]) else TagArg(t);
      if TakesHeader(t) {
        assert rest[1..] == s[n + 1..] && rest[1..q - 1] == s[n + 1..n + q - 1];
        assert forall i :: 1 <= i < q - 1 ==> rest[i] == rest[1..][i - 1];
      }
      TagSpells(s, t, q, a);
      SpellsAppend(done, args, s[..n + q], a);
      NormalTag(args, a);
      assert rest[q..] == s[n + q..];
      read, k := ParsedSpells(s[n + q..], args + [a], done + s[..n + q]);
      assert done + s[..n + q] + s[n + q..][..k] == done + s[..n + q + k] && s[n + q..][k..] == s[n + q + k..];
      k := n + q + k;
    }
  }

  /** Conversely a spelling of a normal list compiles to that list, and compilation goes on from
      there with whatever follows. */
  lemma {:induction false} SpelledParses(s: string, args: seq<Arg>, before: seq<Arg>, more: string)
    requires Spells(s, args) && Normal(before + args)
    ensures Parse(s + more, before) == Parse(more, before + args)
    decreases |args|
  {
    hide Name, Text, Starts, SpellsArg, PrintArg, Parse, GoodArg;
    if args == [] {
      assert before + args == before && s + more == more;
    } else {
      var a, n := args[0], |PrintArg(args[0])|;
      assert (before + args)[|before|] == a;
      assert before + [a] + args[1..] == before + args;
      assert s + more == s[..n] + (s[n..] + more);
      SpelledParses(s[n..], args[1..], before + [a], more);
      assert a.Literal? && before != [] ==> !before[|before| - 1].Literal? by {
        if a.Literal? && before != [] {
          assert (before + args)[|before| - 1 + 1] == a && (before + args)[|before| - 1] == before[|before| - 1];
        }
      }
      PieceParses(s[..n], a, before, s[n..] + more);
    }
  }

  lemma {:induction false} PieceParses(piece: string, a: Arg, before: seq<Arg>, more: string)
    requires SpellsArg(piece, a) && GoodArg(a) && (a.Literal? && before != [] ==> !before[|before| - 1].Literal?)
    ensures Parse(piece + more, before) == Parse(more, before + [a])
  {
    hide Name, Text, Starts, Parse, ParseName;
    var format := piece + more;
    match a
    case Literal(text) => ParseLiteral(text, more, before);
    case TagArg(t) =>
      TagLeads(piece, t, more);
      assert format[0..] == format && format[|Text(t)|..] == more;
      TagTurn(format, 0, before, t);
    case HeaderArg(t, name) =>
      TagLeads(piece, t, more);
      assert format[0..] == format && format[|Text(t)|..] == ['\''] + name + ['\''] + more;
      TagTurn(format, 0, before, t);
      NameParsed(t, name, more, before);
  }

  lemma TagLeads(piece: string, t: Tag, more: string)
    requires Starts(piece, t)
    ensures |Text(t)| <= |piece| && TagAt(piece + more) == Some(t) && (piece + more)[0] == '{'
  {
    hide Name;
    var s := piece + more;
    assert s[..|Text(t)|] == piece[..|Text(t)|];
    TagAtIff(s, t);
    assert Upper(piece[0]) == Text(t)[0] == '{';
  }

  lemma {:induction false} NameParsed(t: Tag, name: string, more: string, before: seq<Arg>)
    requires '\'' !in name
    ensures ParseName(['\''] + name + ['\''] + more, before, t) == Parse(more, before + [HeaderArg(t, name)])
  {
    hide Parse, Quote;
    var tail := ['\''] + name + ['\''] + more;
    QuoteAt(name, more);
    assert tail[1..] == name + ['\''] + more;
    assert tail[1..|name| + 1] == name && tail[|name| + 2..] == more;
  }

  lemma {:induction false} QuoteAt(name: string, more: string)
    requires '\'' !in name
    ensures Quote(name + ['\''] + more) == |name|
  {
    var s := name + ['\''] + more;
    var q := Quote(s);
    assert s[|name|] == '\'';
    assert forall i :: 0 <= i < |name| ==> s[i] == name[i] && name[i] in name;
  }

  lemma {:induction false} ParseLiteral(text: string, more: string, before: seq<Arg>)
    requires text != [] && '{' !in text && (before != [] ==> !before[|before| - 1].Literal?)
    ensures Parse(text + more, before) == Parse(more, before + [Literal(text)])
  {
    assert text[0] in text;
    assert (text + more)[1..] == text[1..] + more;
    assert [text[0]] + text[1..] == text;
    LiteralGrows(text[1..], more, before, [text[0]]);
  }

  lemma {:induction false} LiteralGrows(text: string, more: string, before: seq<Arg>, done: string)
    requires '{' !in text
    ensures Parse(text + more, before + [Literal(done)]) == Parse(more, before + [Literal(done + text)])
  {
    if text == [] {
      assert text + more == more && done + text == done;
    } else {
      assert text[0] in text;
      var args := before + [Literal(done)];
      assert args[..|args| - 1] == before;
      assert (text + more)[1..] == text[1..] + more;
      assert done + [text[0]] + text[1..] == done + text;
      LiteralGrows(text[1..], more, before, done + [text[0]]);
    }
  }

  /** The growing character buffer of one argument. */
  class CharBuffer {
    var data: array?<char>
    var used: nat

    ghost predicate Valid()
      reads this, data
    {
      if data == null then used == 0 else used + 1 < data.Length && data[used] == '\0'
    }

    ghost function Contents(): string
      reads this, data
      requires Valid()
    {
      if data == null then [] else data[..used]
    }

    constructor ()
      ensures Valid() && Contents() == [] && data == null
    {
      data, used := null, 0;
    }

    /** One more character: every access is in bounds, the text stays terminated, and
        nothing that was in the buffer is lost when it grows. */
    method AddChar(c: char)
      requires Valid()
      modifies this, data
      ensures Valid() && data != null && (fresh(data) || data == old(data))
      ensures Contents() == old(Contents()) + [c]
    {
      if data == null {
        data := new char[8](_ => '\0');
        used := 0;
      }
      if used + 2 >= data.Length {
        var grown := new char[data.Length + 16](_ => '\0');
        var i := 0;
        while i < data.Length
          invariant 0 <= i <= data.Length < grown.Length && fresh(grown)
          invariant grown[..i] == data[..i]
          invariant data == null || used + 1 < data.Length
          modifies grown
        {
          grown[i] := data[i];
          i := i + 1;
        }
        assert grown[..used] == data[..used];
        data := grown;
      }
      data[used] := c;
      used := used + 1;
      data[used] := '\0';
    }
  }

  /** The quoted name that starts at pos, up to its closing quote or the end. */
  method ReadName(format: string, pos: nat) returns (name: string, end: nat)
    requires pos <= |format|
    ensures end == pos + Quote(format[pos..]) && name == format[pos..end]
  {
    name, end := [], pos;
    ghost var q := Quote(format[pos..]);
    while end < |format| && format[end] != '\''
      invariant pos <= end <= pos + q && name == format[pos..end]
    {
      assert format[end] == format[pos..][end - pos];
      name := name + [format[end]];
      end := end + 1;
    }
    assert end < |format| ==> format[pos..][end - pos] == '\'';
  }

  // One turn of the compiler's loop, at a position of the format.

  lemma LiteralTurn(format: string, pos: nat, args: seq<Arg>)
    requires pos < |format| && format[pos] != '{'
    ensures Parse(format[pos..], args) == Parse(format[pos + 1..], AddChar(args, format[pos]))
  {
    assert format[pos..][1..] == format[pos + 1..];
  }

  lemma TagTurn(format: string, pos: nat, args: seq<Arg>, t: Tag)
    requires pos < |format| && format[pos] == '{' && TagAt(format[pos..]) == Some(t)
    ensures pos + |Text(t)| <= |format|
    ensures !TakesHeader(t) ==> Parse(format[pos..], args) == Parse(format[pos + |Text(t)|..], args + [TagArg(t)])
    ensures TakesHeader(t) ==> Parse(format[pos..], args) == ParseName(format[pos + |Text(t)|..], args, t)
  {
    hide Name, Text, TagAt, Starts;
    TagAtIff(format[pos..], t);
    StartsLong(format[pos..], t);
    assert format[pos..][|Text(t)|..] == format[pos + |Text(t)|..];
  }

  lemma NameTurn(format: string, pos: nat, args: seq<Arg>, t: Tag)
    requires pos < |format| && format[pos] == '\''
    ensures var end := pos + 1 + Quote(format[pos + 1..]);
            ParseName(format[pos..], args, t) ==
              if end == |format| then Overrun else Parse(format[end + 1..], args + [HeaderArg(t, format[pos + 1..end])])
  {
    hide Parse;
    var rest := format[pos..];
    var q := Quote(rest[1..]);
    assert rest[1..] == format[pos + 1..];
    if q < |rest| - 1 {
      assert rest[q + 2..] == format[pos + q + 2..] && rest[1..q + 1] == format[pos + 1..pos + 1 + q];
    }
  }

  /** The compiler: one pass over the format with a moving position. */
  method Compile(format: string) returns (result: Result)
    ensures result == Parse(format, [])
  {
    hide Name, Text, TagAt, Parse, AddChar, Quote, ParseName;
    var pos, args := 0, [];
    assert format[0..] == format;
    while pos < |format|
      invariant 0 <= pos <= |format| && Parse(format, []) == Parse(format[pos..], args)
    {
      if format[pos] == '{' {
        var found := ArgTypeFromString(format[pos..]);
        if found.None? {
          Unknown(format[pos..], args);
          return UnknownTag;
        }
        TagTurn(format, pos, args, found.value);
        pos := pos + |Text(found.value)|;
        if TakesHeader(found.value) {
          if pos == |format| || format[pos] != '\'' {
            NameMissing(format[pos..], args, found.value);
            return Rejected;
          }
          NameTurn(format, pos, args, found.value);
          var name, end := ReadName(format, pos + 1);
          if end == |format| { return Overrun; }
          args := args + [HeaderArg(found.value, name)];
          pos := end + 1;
        } else {
          args := args + [TagArg(found.value)];
        }
      } else {
        LiteralTurn(format, pos, args);
        args := AddChar(args, format[pos]);
        pos := pos + 1;
      }
    }
    Done(format[pos..], args);
    result := Compiled(args);
  }

  lemma NameMissing(rest: string, args: seq<Arg>, t: Tag)
    requires rest == [] || rest[0] != '\''
    ensures ParseName(rest, args, t) == Rejected
  {}

  lemma Unknown(s: string, args: seq<Arg>)
    requires s != [] && s[0] == '{' && TagAt(s) == None
    ensures Parse(s, args) == UnknownTag
  {}

  lemma Done(s: string, args: seq<Arg>)
    requires s == []
    ensures Parse(s, args) == Compiled(args)
  {}

  // The outcome, decided by what the format spells.

  /** A list is compiled from exactly the formats that spell it, and it is in normal form. */
  lemma {:induction false} CompiledIff(format: string, args: seq<Arg>)
    ensures Parse(format, []) == Compiled(args) <==> Normal(args) && Spells(format, args)
  {
    hide Spells, Parse, Normal;
    var read, k := ParsedFromStart(format);
    assert format[..|format|] == format;
    if Normal(args) && Spells(format, args) {
      SpelledFromStart(format, |format|, args);
      Done(format[|format|..], args);
    }
  }

  lemma {:induction false} ParsedFromStart(format: string) returns (read: seq<Arg>, k: nat)
    ensures SpelledTo(format, k, read) && StopsWith(Parse(format, []), read, format[k..])
  {
    var none: string := [];
    assert Spells(none, []) && Normal([]);
    hide Spells, Parse, Normal, NoTagAt, NoNameAt, NoQuoteAt;
    read, k := ParsedSpells(format, [], none);
    assert none + format[..k] == format[..k];
  }

  lemma {:induction false} SpelledFromStart(format: string, k: nat, args: seq<Arg>)
    requires SpelledTo(format, k, args)
    ensures Parse(format, []) == Parse(format[k..], args)
  {
    hide Spells, Parse, Normal;
    var none: seq<Arg> := [];
    assert none + args == args && format[..k] + format[k..] == format;
    SpelledParses(format[..k], args, none, format[k..]);
  }

  /** The compiler gives up at a brace without a tag, a header tag without a name or a name
      without its closing quote, if and only if the format has one behind the spelling of a
      normal list. */
  lemma {:induction false} OutcomeIff(format: string)
    ensures Parse(format, []).Compiled? <==> exists args :: Normal(args) && Spells(format, args)
    ensures Parse(format, []) == UnknownTag <==>
              exists k: nat, args :: SpelledTo(format, k, args) && NoTagAt(format[k..])
    ensures Parse(format, []) == Rejected <==>
              exists k: nat, args :: SpelledTo(format, k, args) && NoNameAt(format[k..])
    ensures Parse(format, []) == Overrun <==>
              exists k: nat, args :: SpelledTo(format, k, args) && NoQuoteAt(format[k..])
  {
    hide Spells, Parse, Normal, NoTagAt, NoNameAt, NoQuoteAt;
    var read, k := ParsedFromStart(format);
    if exists args :: Normal(args) && Spells(format, args) {
      var args :| Normal(args) && Spells(format, args);
      CompiledIff(format, args);
    }
    assert Parse(format, []).Compiled? ==> format[..k] == format;
    forall j: nat, args | SpelledTo(format, j, args)
      ensures NoTagAt(format[j..]) ==> Parse(format, []) == UnknownTag
      ensures NoNameAt(format[j..]) ==> Parse(format, []) == Rejected
      ensures NoQuoteAt(format[j..]) ==> Parse(format, []) == Overrun
    {
      SpelledFromStart(format, j, args);
      GivesUp(format[j..], args);
    }
  }

  lemma {:induction false} GivesUp(rest: string, args: seq<Arg>)
    ensures NoTagAt(rest) ==> Parse(rest, args) == UnknownTag
    ensures NoNameAt(rest) ==> Parse(rest, args) == Rejected
    ensures NoQuoteAt(rest) ==> Parse(rest, args) == Overrun
  {
    hide Name, Text, Uppers, Parse, ParseName, Quote;
    if NoTagAt(rest) {
      SearchStarts(rest, 0);
      Unknown(rest, args);
    }
    if NoNameAt(rest) {
      var t :| TakesHeader(t) && Starts(rest, t) && (|rest| == |Text(t)| || rest[|Text(t)|] != '\'');
      var tail := HeaderLeads(rest, t, args);
      NameMissing(tail, args, t);
    }
    if NoQuoteAt(rest) {
      var t :| TakesHeader(t) && Starts(rest, t) && |rest| > |Text(t)| && rest[|Text(t)|] == '\'' &&
        '\'' !in rest[|Text(t)| + 1..];
      var tail := HeaderLeads(rest, t, args);
      assert tail[1..] == rest[|Text(t)| + 1..];
      QuoteMissing(tail, args, t);
    }
  }

  lemma HeaderLeads(rest: string, t: Tag, args: seq<Arg>) returns (tail: string)
    requires TakesHeader(t) && Starts(rest, t)
    ensures |Text(t)| <= |rest| && tail == rest[|Text(t)|..] && Parse(rest, args) == ParseName(tail, args, t)
  {
    hide Name, Text, Starts, Parse, ParseName;
    var none: string := [];
    TagLeads(rest, t, none);
    assert rest + none == rest && rest[0..] == rest;
    TagTurn(rest, 0, args, t);
    tail := rest[|Text(t)|..];
  }

  lemma QuoteMissing(tail: string, args: seq<Arg>, t: Tag)
    requires tail != [] && tail[0] == '\'' && '\'' !in tail[1..]
    ensures ParseName(tail, args, t) == Overrun
  {
    assert Quote(tail[1..]) == |tail| - 1;
  }

  /** A list prints as one of its spellings. */
  lemma {:induction false} PrintSpells(args: seq<Arg>)
    ensures Spells(Print(args), args)
  {
    hide Name, Text, SpellsArg, PrintArg;
    if args != [] {
      var first, rest := PrintArg(args[0]), Print(args[1..]);
      PrintSpells(args[1..]);
      PrintedSpells(args[0]);
      assert (first + rest)[..|first|] == first && (first + rest)[|first|..] == rest;
    }
  }

  lemma PrintedSpells(a: Arg)
    ensures SpellsArg(PrintArg(a), a)
  {
    hide Name, Text, Uppers;
    if !a.Literal? {
      TextUpper(a.tag);
      assert PrintArg(a)[..|Text(a.tag)|] == Text(a.tag);
    }
  }

  lemma TextUpper(t: Tag)
    ensures Uppers(Text(t)) == Text(t)
  {
    NamesArePlain(t);
    hide Name;
    forall i | 0 <= i < |Text(t)| ensures Upper(Text(t)[i]) == Text(t)[i] {
      if 1 <= i <= |Name(t)| { assert Text(t)[i] == Name(t)[i - 1]; }
    }
  }

  /** Round trip: every list in normal form compiles back to itself. */
  lemma {:induction false} PrintThenCompile(args: seq<Arg>)
    requires Normal(args)
    ensures Parse(Print(args), []) == Compiled(args)
  {
    PrintSpells(args);
    CompiledIff(Print(args), args);
  }

  /** A format with an unknown tag, and one whose header name is not closed. */
  lemma {:induction false} BadFormats()
    ensures Parse("{NOPE}", []) == UnknownTag && Parse("{US_HDR}:'x", []) == Overrun
  {
    hide Starts, Text, Name, Parse;
    var none: seq<Arg> := [];
    forall t ensures !Starts("{NOPE}", t) { NotATag(t); }
    GivesUp("{NOPE}", none);
    OpenQuote();
    GivesUp("{US_HDR}:'x", none);
  }

  lemma OpenQuote()
    ensures NoQuoteAt("{US_HDR}:'x")
  {
    var format, tag := "{US_HDR}:'x", "{US_HDR}:";
    assert Text(UsHdr) == tag;
    TextUpper(UsHdr);
    hide Text, Name, Uppers;
    assert |tag| == 9 && format[..9] == tag && format[10..] == "x";
  }

  lemma NotATag(t: Tag)
    ensures !Starts("{NOPE}", t)
  {
    var s := "{NOPE}";
    assert Text(t)[1] == Name(t)[0] != 'N';
    if |Text(t)| <= |s| { assert Uppers(s[..|Text(t)|])[1] == 'N'; }
  }
}
