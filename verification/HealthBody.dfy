/**
 Reading a whole health body (src/scf/tools/cloud_run_evidence.py:166, 312-402):
 what proxies put in front of the document is stripped, and the document is then
 read by its structure.
 */
module HealthBody {
  import opened Values
  import opened Health

  const MAX_HEALTH_BODY := 65536

  // --- prefixes in front of the document ---

  const BOM := '\U{FEFF}'

  /** What `str.strip` removes. */
  predicate IsSpace(c: char) {
    || '\t' <= c <= '\r' || '\U{1c}' <= c <= ' ' || c == '\U{85}' || c == '\U{a0}' || c == '\U{1680}'
    || '\U{2000}' <= c <= '\U{200a}' || '\U{2028}' <= c <= '\U{2029}' || c == '\U{202f}' || c == '\U{205f}'
    || c == '\U{3000}'
  }

  lemma InkIsNotSpace()
    ensures !IsSpace('{') && !IsSpace('[') && !IsSpace(')') && !IsSpace('w') && !IsSpace('f') && !IsSpace(',')
    ensures !IsSpace(BOM)
    ensures IsSpace('\n') && IsSpace(' ') && IsSpace('\t') && IsSpace('\U{a0}')
  {
  }

  const JSON_PREFIXES: seq<string> := [")]}'\n", ")]}',\n", ")]}'", "while(1);", "for(;;);"]

  predicate IsSuffix(r: string, s: string) {
    |r| <= |s| && s[|s| - |r|..] == r
  }

  function StripBoms(s: string): (r: string)
    ensures IsSuffix(r, s)
  {
    if s != "" && s[0] == BOM then StripBoms(s[1..]) else s
  }

  function StripSpace(s: string): (r: string)
    ensures IsSuffix(r, s)
  {
    if s != "" && IsSpace(s[0]) then StripSpace(s[1..]) else s
  }

  /** The first of `prefixes` that the text starts with; "" if none does. */
  function FirstPrefix(prefixes: seq<string>, s: string): (g: string)
    ensures g <= s
  {
    if prefixes == [] then ""
    else if prefixes[0] <= s then prefixes[0]
    else FirstPrefix(prefixes[1..], s)
  }

  method DropPrefix(prefixes: seq<string>, s: string) returns (r: string)
    ensures r == s[|FirstPrefix(prefixes, s)|..]
  {
    var i := 0;
    while i < |prefixes|
      invariant i <= |prefixes| && FirstPrefix(prefixes, s) == FirstPrefix(prefixes[i..], s)
    {
      if prefixes[i] <= s {
        return s[|prefixes[i]|..];
      }
      i := i + 1;
    }
    return s;
  }

  /** One turn of the loop: BOMs, then whitespace, then at most one guard. */
  function Stripped(prefixes: seq<string>, s: string): (r: string)
    ensures IsSuffix(r, s)
  {
    var bare := StripSpace(StripBoms(s));
    SuffixOfSuffix(bare, StripBoms(s), s);
    var r := bare[|FirstPrefix(prefixes, bare)|..];
    SuffixOfSuffix(r, bare, s);
    r
  }

  lemma SuffixOfSuffix(r: string, m: string, s: string)
    requires IsSuffix(r, m) && IsSuffix(m, s)
    ensures IsSuffix(r, s)
  {
  }

  lemma WholeSuffix(r: string, s: string)
    requires IsSuffix(r, s) && |r| == |s|
    ensures r == s
  {
  }

  function StripAll(prefixes: seq<string>, s: string): string
    decreases |s|
  {
    var next := Stripped(prefixes, s);
    if next == s then s
    else
      assert |next| < |s| by { if |next| == |s| { WholeSuffix(next, s); } }
      StripAll(prefixes, next)
  }

  lemma {:induction false} StripAllIsAFixedSuffix(prefixes: seq<string>, s: string)
    ensures IsSuffix(StripAll(prefixes, s), s)
    ensures Stripped(prefixes, StripAll(prefixes, s)) == StripAll(prefixes, s)
    decreases |s|
  {
    var next := Stripped(prefixes, s);
    if next != s {
      if |next| == |s| {
        WholeSuffix(next, s);
      }
      StripAllIsAFixedSuffix(prefixes, next);
      SuffixOfSuffix(StripAll(prefixes, s), next, s);
    }
  }

  /** The loop has no iteration bound and needs none: it ends at a suffix it can no longer shorten. */
  method StripPrefixes(prefixes: seq<string>, text: string) returns (rest: string)
    ensures rest == StripAll(prefixes, text)
    ensures IsSuffix(rest, text) && Stripped(prefixes, rest) == rest
  {
    rest := text;
    StripAllIsAFixedSuffix(prefixes, text);
    while true
      invariant StripAll(prefixes, rest) == StripAll(prefixes, text)
      decreases |rest|
    {
      var stripped := DropPrefix(prefixes, StripSpace(StripBoms(rest)));
      assert stripped == Stripped(prefixes, rest);
      if stripped == rest {
        break;
      }
      if |stripped| == |rest| {
        WholeSuffix(stripped, rest);
      }
      rest := stripped;
    }
  }

  /** What proxies may have layered in front of a document; a guard followed by a newline is a guard
      and a blank. */
  datatype Junk = Blank(c: char) | Xssi | XssiComma | WhileLoop | ForLoop

  predicate ValidJunk(parts: seq<Junk>) {
    forall p <- parts :: p.Blank? ==> p.c == BOM || IsSpace(p.c)
  }

  function JunkText(p: Junk): string {
    match p
    case Blank(c) => [c]
    case Xssi => ")]}'"
    case XssiComma => ")]}',\n"
    case WhileLoop => "while(1);"
    case ForLoop => "for(;;);"
  }

  function Layers(parts: seq<Junk>, t: string): string {
    if parts == [] then t else JunkText(parts[0]) + Layers(parts[1..], t)
  }

  predicate StartsDocument(t: string) {
    t != "" && (t[0] == '{' || t[0] == '[')
  }

  function DropBoms(parts: seq<Junk>): seq<Junk> {
    if parts != [] && parts[0] == Blank(BOM) then DropBoms(parts[1..]) else parts
  }

  function DropSpace(parts: seq<Junk>): seq<Junk> {
    if parts != [] && parts[0].Blank? && IsSpace(parts[0].c) then DropSpace(parts[1..]) else parts
  }

  lemma FirstChar(parts: seq<Junk>, t: string)
    requires StartsDocument(t)
    ensures var s := Layers(parts, t);
            s != "" && s[0] == if parts == [] then t[0] else JunkText(parts[0])[0]
  {
  }

  lemma {:induction false} BomsAreDropped(parts: seq<Junk>, t: string)
    requires ValidJunk(parts) && StartsDocument(t)
    ensures StripBoms(Layers(parts, t)) == Layers(DropBoms(parts), t)
    ensures ValidJunk(DropBoms(parts)) && |DropBoms(parts)| <= |parts|
    ensures |DropBoms(parts)| == |parts| ==> DropBoms(parts) == parts
    ensures DropBoms(parts) != [] ==> DropBoms(parts)[0] != Blank(BOM)
  {
    if parts != [] {
      assert Layers(parts, t)[0] == JunkText(parts[0])[0];
      assert parts[0].Blank? ==> Layers(parts, t)[1..] == Layers(parts[1..], t);
      if parts[0] == Blank(BOM) {
        BomsAreDropped(parts[1..], t);
      }
    }
  }

  lemma BlankInFront(parts: seq<Junk>, t: string)
    requires parts != [] && parts[0].Blank?
    ensures Layers(parts, t)[1..] == Layers(parts[1..], t)
  {
  }

  lemma InkInFront(p: Junk)
    requires !p.Blank? || !IsSpace(p.c)
    ensures !IsSpace(JunkText(p)[0])
  {
  }

  lemma InkedTextStays(s: string)
    requires s != "" && !IsSpace(s[0])
    ensures StripSpace(s) == s
  {
  }

  lemma InkStays(parts: seq<Junk>, t: string)
    requires StartsDocument(t) && (parts == [] || !parts[0].Blank? || !IsSpace(parts[0].c))
    ensures StripSpace(Layers(parts, t)) == Layers(parts, t)
  {
    FirstChar(parts, t);
    if parts != [] {
      InkInFront(parts[0]);
    }
    InkedTextStays(Layers(parts, t));
  }

  lemma {:induction false} SpaceIsDropped(parts: seq<Junk>, t: string)
    requires ValidJunk(parts) && StartsDocument(t)
    ensures StripSpace(Layers(parts, t)) == Layers(DropSpace(parts), t)
    ensures ValidJunk(DropSpace(parts)) && |DropSpace(parts)| <= |parts|
    ensures |DropSpace(parts)| == |parts| ==> DropSpace(parts) == parts
    ensures DropSpace(parts) != [] && DropSpace(parts)[0].Blank? ==> !IsSpace(DropSpace(parts)[0].c)
  {
    if parts != [] && parts[0].Blank? && IsSpace(parts[0].c) {
      FirstChar(parts, t);
      BlankInFront(parts, t);
      SpaceIsDropped(parts[1..], t);
    } else {
      InkStays(parts, t);
    }
  }

  lemma Guards(s: string)
    ensures FirstPrefix(JSON_PREFIXES, s) ==
            if ")]}'\n" <= s then ")]}'\n" else if ")]}',\n" <= s then ")]}',\n" else if ")]}'" <= s then ")]}'"
            else if "while(1);" <= s then "while(1);" else if "for(;;);" <= s then "for(;;);" else ""
  {
    var p := JSON_PREFIXES;
    assert p[1..][1..] == p[2..] && p[2..][1..] == p[3..] && p[3..][1..] == p[4..] && p[4..][1..] == [];
    assert FirstPrefix(p[4..], s) == if "for(;;);" <= s then "for(;;);" else "";
    assert FirstPrefix(p[3..], s) == if "while(1);" <= s then "while(1);" else FirstPrefix(p[4..], s);
    assert FirstPrefix(p[2..], s) == if ")]}'" <= s then ")]}'" else FirstPrefix(p[3..], s);
    assert FirstPrefix(p[1..], s) == if ")]}',\n" <= s then ")]}',\n" else FirstPrefix(p[2..], s);
  }

  lemma XssiGuards(s: string)
    requires |s| > 4 && s[..4] == ")]}'" && s[4] != ','
    ensures FirstPrefix(JSON_PREFIXES, s) == if s[4] == '\n' then ")]}'\n" else ")]}'"
  {
    Guards(s);
    assert s[0] == ')' && s[1] == ']' && s[2] == '}' && s[3] == '\'';
    if s[4] == '\n' {
      assert s[..5] == ")]}'\n";
    }
  }

  lemma NewlineIsBlank(behind: seq<Junk>, t: string)
    requires StartsDocument(t) && Layers(behind, t) != "" && Layers(behind, t)[0] == '\n'
    ensures behind != [] && behind[0] == Blank('\n') && Layers(behind, t) == "\n" + Layers(behind[1..], t)
  {
    FirstChar(behind, t);
  }

  lemma CommaIsNoBlank(behind: seq<Junk>, t: string)
    requires ValidJunk(behind) && StartsDocument(t)
    ensures Layers(behind, t) != "" && Layers(behind, t)[0] != ','
  {
    FirstChar(behind, t);
    InkIsNotSpace();
    assert behind != [] ==> behind[0] in behind;
  }

  lemma FrontIsDropped(front: string, rest: string)
    ensures (front + rest)[|front|..] == rest
  {
  }

  /** The bare guard takes a newline behind it along. */
  lemma XssiIsDropped(behind: seq<Junk>, t: string) returns (rest: seq<Junk>)
    requires ValidJunk(behind) && StartsDocument(t)
    ensures var s := ")]}'" + Layers(behind, t); s[|FirstPrefix(JSON_PREFIXES, s)|..] == Layers(rest, t)
    ensures ValidJunk(rest) && |rest| <= |behind|
  {
    var tail := Layers(behind, t);
    var s := ")]}'" + tail;
    CommaIsNoBlank(behind, t);
    assert s[..4] == ")]}'" && s[4] == tail[0];
    XssiGuards(s);
    if tail[0] == '\n' {
      NewlineIsBlank(behind, t);
      rest := behind[1..];
      assert s == ")]}'\n" + Layers(rest, t);
      FrontIsDropped(")]}'\n", Layers(rest, t));
    } else {
      rest := behind;
      FrontIsDropped(")]}'", tail);
    }
  }

  lemma NoGuard(s: string)
    requires s != "" && s[0] != ')' && s[0] != 'w' && s[0] != 'f'
    ensures FirstPrefix(JSON_PREFIXES, s) == ""
  {
    Guards(s);
  }

  lemma CommaGuard(tail: string)
    ensures FirstPrefix(JSON_PREFIXES, ")]}',\n" + tail) == ")]}',\n"
  {
    var s := ")]}',\n" + tail;
    Guards(s);
    assert s[4] == ',' && s[..6] == ")]}',\n";
    assert ")]}'\n"[4] == '\n';
  }

  lemma LoopGuard(guard: string, tail: string)
    requires guard == "while(1);" || guard == "for(;;);"
    ensures FirstPrefix(JSON_PREFIXES, guard + tail) == guard
  {
    var s := guard + tail;
    Guards(s);
    assert s[0] == guard[0] && s[..|guard|] == guard;
  }

  /** With blanks gone, a guard is removed whole. */
  lemma GuardIsDropped(parts: seq<Junk>, t: string) returns (rest: seq<Junk>)
    requires ValidJunk(parts) && StartsDocument(t)
    requires parts != [] && parts[0].Blank? ==> !IsSpace(parts[0].c)
    ensures var s := Layers(parts, t); s[|FirstPrefix(JSON_PREFIXES, s)|..] == Layers(rest, t)
    ensures ValidJunk(rest) && |rest| <= |parts|
    ensures parts != [] && !parts[0].Blank? ==> |rest| < |parts|
    ensures |rest| == |parts| ==> rest == parts
  {
    var s := Layers(parts, t);
    if parts == [] || parts[0].Blank? {
      rest := parts;
      FirstChar(parts, t);
      assert parts != [] ==> parts[0] in parts;
      NoGuard(s);
    } else if parts[0] == Xssi {
      rest := XssiIsDropped(parts[1..], t);
    } else {
      rest := parts[1..];
      if parts[0] == XssiComma {
        CommaGuard(Layers(rest, t));
      } else {
        LoopGuard(JunkText(parts[0]), Layers(rest, t));
      }
    }
  }

  lemma OneTurn(parts: seq<Junk>, t: string) returns (rest: seq<Junk>)
    requires ValidJunk(parts) && StartsDocument(t)
    ensures Stripped(JSON_PREFIXES, Layers(parts, t)) == Layers(rest, t)
    ensures ValidJunk(rest) && |rest| <= |parts| && (|rest| == |parts| ==> parts == [])
  {
    BomsAreDropped(parts, t);
    var noBoms := DropBoms(parts);
    SpaceIsDropped(noBoms, t);
    var bare := DropSpace(noBoms);
    rest := GuardIsDropped(bare, t);
    assert parts != [] ==> parts[0] in parts;
  }

  /** Whatever finite pile of guards, BOMs and whitespace stands in front of a document, stripping
      returns exactly the document. */
  lemma {:induction false} LayersComeOff(parts: seq<Junk>, t: string)
    requires ValidJunk(parts) && StartsDocument(t)
    ensures StripAll(JSON_PREFIXES, Layers(parts, t)) == t
    decreases |parts|
  {
    var rest := OneTurn(parts, t);
    if parts != [] {
      LayersComeOff(rest, t);
    }
  }

  // --- the whole reading of a body ---

  /** `null` and a body that does not parse are one case to the reader. */
  function Payload(rd: Reader, text: string): Json {
    match rd.parse(text)
    case None => JNull
    case Some(j) => Load(j)
  }

  predicate Healthy(rd: Reader, body: string) {
    |body| <= MAX_HEALTH_BODY && rd.fold(body) != "" && HealthyText(rd, StripAll(JSON_PREFIXES, rd.fold(body)))
  }

  /** On stripped text: structure decides for a document, words only for what is not one. */
  predicate HealthyText(rd: Reader, text: string) {
    var payload := Payload(rd, text);
    if payload == JNull then !StartsDocument(text) && rd.soundsHealthy(text)
    else Reads(rd, payload)
  }

  method BodyIsHealthy(rd: Reader, body: string) returns (healthy: bool)
    ensures healthy == Healthy(rd, body)
  {
    if |body| > MAX_HEALTH_BODY {
      return false;
    }
    var text := rd.fold(body);
    if text == "" {
      return false;
    }
    text := StripPrefixes(JSON_PREFIXES, text);
    healthy := StrippedTextIsHealthy(rd, text);
  }

  method StrippedTextIsHealthy(rd: Reader, text: string) returns (healthy: bool)
    ensures healthy == HealthyText(rd, text)
  {
    var payload := Payload(rd, text);
    if payload == JNull && StartsDocument(text) {
      return false;
    }
    var verdicts := CollectHealthVerdicts(rd, payload, 0);
    if verdicts != [] {
      return false !in verdicts;
    }
    if payload != JNull {
      return false;
    }
    return rd.soundsHealthy(text);
  }

  /** A proxy that puts guards in front of a document cannot change how it is read, and a document
      that parses is healthy exactly when it asserts health somewhere and is pessimistic nowhere;
      one that does not parse is unhealthy, whatever words it contains. */
  lemma DocumentsAreReadStructurally(rd: Reader, body: string, parts: seq<Junk>, t: string)
    requires |body| <= MAX_HEALTH_BODY && rd.fold(body) == Layers(parts, t)
    requires ValidJunk(parts) && StartsDocument(t)
    ensures Healthy(rd, body) <==>
            && rd.parse(t).Some? && Payload(rd, t) != JNull
            && SomeNode(Payload(rd, t), 0, Praising(rd)) && !SomeNode(Payload(rd, t), 0, Pessimistic(rd))
  {
    LayersComeOff(parts, t);
    FirstChar(parts, t);
    ReadsExactly(rd, Payload(rd, t));
  }

  predicate LooksLikeDocument(t: string) {
    t != "" && (t[0] == '{' || t[0] == '[')
  }

  lemma TextIsReadExactly(rd: Reader, t: string)
    ensures HealthyText(rd, t) <==>
            if rd.parse(t).Some? && !rd.parse(t).value.JNull? then
              && SomeNode(Load(rd.parse(t).value), 0, Praising(rd))
              && !SomeNode(Load(rd.parse(t).value), 0, Pessimistic(rd))
            else !LooksLikeDocument(t) && rd.soundsHealthy(t)
  {
    if rd.parse(t).Some? {
      ReadsExactly(rd, Load(rd.parse(t).value));
    }
  }

  /** How every body is read. Too long or blank is unhealthy. What is left of the text when guards are
      stripped is read by its structure if it parses to something, and by its words only if it neither
      parses nor starts like a document. */
  lemma BodiesAreReadExactly(rd: Reader, body: string)
    ensures Healthy(rd, body) <==>
            && |body| <= 65536 && rd.fold(body) != ""
            && var t := StripAll(JSON_PREFIXES, rd.fold(body));
               if rd.parse(t).Some? && !rd.parse(t).value.JNull? then
                 && SomeNode(Load(rd.parse(t).value), 0, Praising(rd))
                 && !SomeNode(Load(rd.parse(t).value), 0, Pessimistic(rd))
               else !LooksLikeDocument(t) && rd.soundsHealthy(t)
  {
    TextIsReadExactly(rd, StripAll(JSON_PREFIXES, rd.fold(body)));
  }
}
