/** RFC 5424: the printer's structured data against a reader of section 6.3 of that standard. */
module Syslog {
  import opened Common
  import opened Escaping
  import opened Exports

  // ---- parameter values ----------------------------------------------------------------------------------

  const PARAM_RULES: seq<Rule> := [Rule('\\', "\\\\"), Rule('"', "\\\""), Rule(']', "\\]")]

  const PARAM := Code(
    map['\\' := '\\', '"' := '"', ']' := ']'],
    map['\\' := '\\', '"' := '"', ']' := ']'])

  lemma ParamIsProper()
    ensures Proper(PARAM)
  {
  }

  lemma ParamRulesOnChar(c: char)
    ensures Chain([c], PARAM_RULES) == EscapeChar(PARAM, c)
  {
    hide Replace;
    var done := [c];
    ChainOnChar(c, [], done, Rule('\\', "\\\\"));
    done := if c == '\\' then "\\\\" else [c];
    assert [] + [PARAM_RULES[0]] == PARAM_RULES[..1];
    ChainOnChar(c, PARAM_RULES[..1], done, Rule('"', "\\\""));
    done := if c == '"' then "\\\"" else done;
    assert PARAM_RULES[..1] + [PARAM_RULES[1]] == PARAM_RULES[..2];
    ChainOnChar(c, PARAM_RULES[..2], done, Rule(']', "\\]"));
    assert PARAM_RULES[..2] + [PARAM_RULES[2]] == PARAM_RULES;
  }

  lemma ParamChainIsEscape(text: string)
    ensures Chain(text, PARAM_RULES) == Escape(PARAM, text)
  {
    hide Chain, EscapeChar;
    forall c ensures Chain([c], PARAM_RULES) == EscapeChar(PARAM, c) {
      ParamRulesOnChar(c);
    }
    ChainIsSinglePass(text, PARAM_RULES, PARAM);
  }

  /** `_param`: three replacements that amount to one escape. */
  method ParamText(text: string) returns (escaped: string)
    ensures escaped == Escape(PARAM, text)
  {
    hide Replace, Escape;
    escaped := Replace(text, '\\', "\\\\");
    escaped := Replace(escaped, '"', "\\\"");
    escaped := Replace(escaped, ']', "\\]");
    assert escaped == Chain(text, PARAM_RULES);
    ParamChainIsEscape(text);
  }

  // ---- the printer -----------------------------------------------------------------------------------------

  function Visible(c: char): char {
    if 33 <= c as int <= 126 then c else '_'
  }

  function Token(text: string): string {
    var t := if text == "" then "-" else text;
    var shown := seq(|t|, i requires 0 <= i < |t| => Visible(t[i]));
    if |shown| <= 48 then shown else shown[..48]
  }

  /** A line break in the message becomes a space. */
  function OneLine(text: string): string {
    seq(|text|, i requires 0 <= i < |text| => if text[i] == '\r' || text[i] == '\n' then ' ' else text[i])
  }

  function Priority(severity: int): int {
    128 + Min(Max(severity, 0), 7)
  }

  function Params(e: Exported): seq<Field> {
    [Field("schemaVersion", e.schemaVersion), Field("eventId", e.id), Field("rawSha256", e.rawSha256),
     Field("sourcePack", e.packName), Field("sourcePackVersion", e.packVersion), Field("parser", e.parserName),
     Field("parserVersion", e.parserVersion), Field("quality", e.quality)]
  }

  function PrintParam(p: Field, rest: string): string {
    " " + (p.key + ['='] + ("\"" + (Escape(PARAM, p.value) + ("" + ['"'] + rest))))
  }

  /** The parameters, then what follows. */
  function PrintParams(params: seq<Field>, rest: string): string {
    if params == [] then rest else PrintParam(params[0], PrintParams(params[1..], rest))
  }

  function PrintElement(id: string, params: seq<Field>, rest: string): string {
    "[" + (id + PrintParams(params, "]" + rest))
  }

  function Prefix(e: Exported, timestamp: string): seq<string> {
    ["<" + IntText(Priority(e.severity)) + ">1", timestamp, Token(e.hostname), "ulpf-prism", "-", Token(e.eventType)]
  }

  function Words(words: seq<string>, rest: string): string {
    if words == [] then rest else words[0] + " " + Words(words[1..], rest)
  }

  function Message(e: Exported): string {
    OneLine(if e.message != "" then e.message else e.name)
  }

  /** `serialize_rfc5424`; `timestamp` is the observed time in the printer's format. */
  function SyslogLine(e: Exported, timestamp: string): string {
    Words(Prefix(e, timestamp), PrintElement("ulpf@32473", Params(e), " " + Message(e)))
  }

  method SerializeSyslog(e: Exported, timestamp: string) returns (line: string)
    ensures line == SyslogLine(e, timestamp)
  {
    hide Escape, IntText, Token, OneLine, PrintParams;
    var message := e.message;
    if message == "" {
      message := e.name;
    }
    var priority := if e.severity < 0 then 128 else if e.severity > 7 then 135 else 128 + e.severity;
    var structured := JoinParams(
      [Field("schemaVersion", e.schemaVersion), Field("eventId", e.id), Field("rawSha256", e.rawSha256),
       Field("sourcePack", e.packName), Field("sourcePackVersion", e.packVersion), Field("parser", e.parserName),
       Field("parserVersion", e.parserVersion), Field("quality", e.quality)],
      "]" + (" " + OneLine(message)));
    var element := "[" + ("ulpf@32473" + structured);
    assert element == PrintElement("ulpf@32473", Params(e), " " + Message(e));
    line := "<" + IntText(priority) + ">1" + " "
            + (timestamp + " "
               + (Token(e.hostname) + " " + ("ulpf-prism" + " " + ("-" + " " + (Token(e.eventType) + " " + element)))));
    SixWordsJoin("<" + IntText(priority) + ">1", timestamp, Token(e.hostname), "ulpf-prism", "-", Token(e.eventType), element);
  }

  lemma SixWordsJoin(a: string, b: string, c: string, d: string, e: string, f: string, rest: string)
    ensures Words([a, b, c, d, e, f], rest)
         == a + " " + (b + " " + (c + " " + (d + " " + (e + " " + (f + " " + rest)))))
  {
    var w := [a, b, c, d, e, f];
    WordsCons(w, rest);
    WordsCons(w[1..], rest);
    WordsCons(w[2..], rest);
    WordsCons(w[3..], rest);
    WordsCons(w[4..], rest);
    WordsCons(w[5..], rest);
    assert w[1..][1..] == w[2..] && w[2..][1..] == w[3..] && w[3..][1..] == w[4..] && w[4..][1..] == w[5..] && w[5..][1..] == [];
    assert Words([], rest) == rest;
    hide Words;
  }

  lemma WordsCons(w: seq<string>, rest: string)
    requires w != []
    ensures Words(w, rest) == w[0] + " " + Words(w[1..], rest)
  {
  }

  method JoinParams(params: seq<Field>, rest: string) returns (text: string)
    ensures text == PrintParams(params, rest)
  {
    hide Escape;
    text := rest;
    for i := |params| downto 0
      invariant text == PrintParams(params[i..], rest)
    {
      var value := ParamText(params[i].value);
      assert params[i..][1..] == params[i + 1..];
      text := " " + (params[i].key + ['='] + ("\"" + (value + ("" + ['"'] + text))));
      assert text == PrintParam(params[i], PrintParams(params[i + 1..], rest));
    }
    assert params[0..] == params;
  }

  // ---- a reader --------------------------------------------------------------------------------------------

  datatype Line = Line(words: seq<string>, id: string, params: seq<Field>, message: string)

  /** The text before the first `d`, and what follows it. */
  function Upto(s: string, d: char): (r: Option<(string, string)>)
    ensures r.Some? ==> |r.value.1| < |s| && s == r.value.0 + [d] + r.value.1
  {
    if s == "" then None
    else if s[0] == d then Some(("", s[1..]))
    else
      var rest := Upto(s[1..], d);
      if rest.None? then None else Some(([s[0]] + rest.value.0, rest.value.1))
  }

  function ReadWords(s: string, n: nat): Option<(seq<string>, string)>
    decreases n
  {
    if n == 0 then Some(([], s))
    else
      var first := Upto(s, ' ');
      if first.None? then None
      else
        var rest := ReadWords(first.value.1, n - 1);
        if rest.None? then None else Some(([first.value.0] + rest.value.0, rest.value.1))
  }

  /** SD-PARAMs up to the bracket that closes the element. */
  function ReadParams(s: string): Option<(seq<Field>, string)>
    decreases |s|
  {
    if s == "" then None
    else if s[0] == ']' then Some(([], s[1..]))
    else if s[0] != ' ' then None
    else
      var key := Upto(s[1..], '=');
      if key.None? || key.value.1 == "" || key.value.1[0] != '"' then None
      else
        var value := ReadUntil(PARAM, key.value.1[1..], '"');
        if value.None? then None
        else
          var rest := ReadParams(value.value.1);
          if rest.None? then None
          else Some(([Field(key.value.0, value.value.0)] + rest.value.0, rest.value.1))
  }

  predicate EndsName(c: char) { c == ' ' || c == ']' }

  function ReadName(s: string): (r: (string, string))
    ensures s == r.0 + r.1
  {
    if s == "" || EndsName(s[0]) then ("", s)
    else
      var rest := ReadName(s[1..]);
      ([s[0]] + rest.0, rest.1)
  }

  function ReadLine(s: string): Option<Line> {
    var header := ReadWords(s, 6);
    if header.None? || header.value.1 == "" || header.value.1[0] != '[' then None
    else
      var name := ReadName(header.value.1[1..]);
      var params := ReadParams(name.1);
      if params.None? || params.value.1 == "" || params.value.1[0] != ' ' then None
      else Some(Line(header.value.0, name.0, params.value.0, params.value.1[1..]))
  }

  // ---- the round trip --------------------------------------------------------------------------------------

  lemma {:induction false} UptoFinds(a: string, d: char, b: string)
    requires d !in a
    ensures Upto(a + [d] + b, d) == Some((a, b))
  {
    var s := a + [d] + b;
    if a == "" {
      assert s == [d] + b;
    } else {
      UptoFinds(a[1..], d, b);
      assert s[1..] == a[1..] + [d] + b;
      assert [a[0]] + a[1..] == a;
    }
  }

  lemma {:induction false} WordsReadBack(words: seq<string>, rest: string)
    requires forall i :: 0 <= i < |words| ==> ' ' !in words[i]
    ensures ReadWords(Words(words, rest), |words|) == Some((words, rest))
  {
    hide Upto;
    if words != [] {
      WordsReadBack(words[1..], rest);
      UptoFinds(words[0], ' ', Words(words[1..], rest));
      assert words == [words[0]] + words[1..];
    }
  }

  /** Reading one printed parameter. */
  lemma ReadsParam(p: Field, more: string)
    requires '=' !in p.key
    ensures var r, rest := ReadParams(PrintParam(p, more)), ReadParams(more);
            r == if rest.None? then None else Some(([p] + rest.value.0, rest.value.1))
  {
    hide Upto, ReadUntil, Escape, Proper;
    var s := PrintParam(p, more);
    var value := Escape(PARAM, p.value) + ("" + ['"'] + more);
    assert s[1..] == p.key + ['='] + ("\"" + value);
    UptoFinds(p.key, '=', "\"" + value);
    ParamIsProper();
    ReadsBack(PARAM, p.value, "", '"', more);
    assert ("\"" + value)[1..] == value;
    assert p.value + "" == p.value;
  }

  lemma {:induction false} ParamsReadBack(params: seq<Field>, rest: string)
    requires forall i :: 0 <= i < |params| ==> '=' !in params[i].key
    ensures ReadParams(PrintParams(params, "]" + rest)) == Some((params, rest))
  {
    hide PrintParam;
    if params == [] {
      assert ("]" + rest)[1..] == rest;
    } else {
      hide ReadParams;
      ParamsReadBack(params[1..], rest);
      ReadsParam(params[0], PrintParams(params[1..], "]" + rest));
      assert params == [params[0]] + params[1..];
    }
  }

  lemma {:induction false} NameReadsBack(name: string, rest: string)
    requires forall i :: 0 <= i < |name| ==> !EndsName(name[i])
    requires rest != "" && EndsName(rest[0])
    ensures ReadName(name + rest) == (name, rest)
  {
    hide EndsName;
    if name == "" {
      assert name + rest == rest;
    } else {
      var tail := name[1..];
      assert forall i :: 0 <= i < |tail| ==> tail[i] == name[i + 1];
      NameReadsBack(tail, rest);
      assert (name + rest)[0] == name[0] && (name + rest)[1..] == tail + rest;
      assert [name[0]] + tail == name;
    }
  }

  lemma KeysHaveNoEquals(e: Exported)
    ensures forall i :: 0 <= i < |Params(e)| ==> '=' !in Params(e)[i].key
  {
    assert '=' !in "schemaVersion" && '=' !in "eventId" && '=' !in "rawSha256" && '=' !in "sourcePack";
    assert '=' !in "sourcePackVersion" && '=' !in "parser" && '=' !in "parserVersion" && '=' !in "quality";
  }

  /** A token is never empty, never longer than 48 and always printable, so it cannot break the header up. */
  lemma TokenIsPrintable(text: string)
    ensures Token(text) != "" && |Token(text)| <= 48
    ensures forall c :: c in Token(text) ==> 33 <= c as int <= 126
  {
    var t := if text == "" then "-" else text;
    assert forall i :: 0 <= i < |Token(text)| ==> Token(text)[i] == Visible(t[i]);
  }

  lemma PrefixHasNoSpace(e: Exported, timestamp: string)
    requires ' ' !in timestamp
    ensures forall i :: 0 <= i < |Prefix(e, timestamp)| ==> ' ' !in Prefix(e, timestamp)[i]
  {
    TokenIsPrintable(e.hostname);
    TokenIsPrintable(e.eventType);
    hide Token;
  }

  /** Whatever the event holds, a reader of the standard's grammar recovers every parameter, evidence identity
      included, with its exact value, and the message with its line breaks turned into spaces. */
  lemma LineReadsBack(e: Exported, timestamp: string)
    requires ' ' !in timestamp
    ensures ReadLine(SyslogLine(e, timestamp)) == Some(Line(Prefix(e, timestamp), "ulpf@32473", Params(e), Message(e)))
    ensures Field("eventId", e.id) in Params(e) && Field("rawSha256", e.rawSha256) in Params(e)
  {
    hide ReadWords, ReadParams, ReadName, Words, Prefix, Message, Escape;
    var rest := " " + Message(e);
    PrefixHasNoSpace(e, timestamp);
    WordsReadBack(Prefix(e, timestamp), PrintElement("ulpf@32473", Params(e), rest));
    assert |Prefix(e, timestamp)| == 6 by { SixWords(e, timestamp); }
    KeysHaveNoEquals(e);
    ParamsReadBack(Params(e), rest);
    var inner := PrintParams(Params(e), "]" + rest);
    assert inner[0] == ' ';
    hide PrintParams;
    DropsFirst('[', "ulpf@32473" + inner);
    NameReadsBack("ulpf@32473", inner);
    DropsFirst(' ', Message(e));
    assert Params(e)[1] == Field("eventId", e.id) && Params(e)[2] == Field("rawSha256", e.rawSha256);
  }

  lemma SixWords(e: Exported, timestamp: string)
    ensures |Prefix(e, timestamp)| == 6
  {
  }

  lemma DropsFirst(c: char, s: string)
    ensures ([c] + s)[1..] == s
  {
  }

  // ---- conformance -----------------------------------------------------------------------------------------

  /** PRINTUSASCII of at most `max` characters, in the words of section 6 of RFC 5424. */
  predicate Printable(s: string, max: nat) {
    1 <= |s| <= max && forall i :: 0 <= i < |s| ==> 33 <= s[i] as int <= 126
  }

  predicate SdName(s: string) {
    Printable(s, 32) && forall i :: 0 <= i < |s| ==> s[i] != '=' && s[i] != ']' && s[i] != '"'
  }

  /** The limits that the standard sets on HOSTNAME, APP-NAME, PROCID, MSGID and the names of the structured
      data. */
  predicate Conforms(line: Line) {
    && |line.words| == 6
    && Printable(line.words[2], 255) && Printable(line.words[3], 48) && Printable(line.words[4], 128)
    && Printable(line.words[5], 32)
    && SdName(line.id) && forall i :: 0 <= i < |line.params| ==> SdName(line.params[i].key)
  }

  lemma TokenLength(text: string)
    ensures |Token(text)| == Max(Min(|text|, 48), 1)
  {
  }

  lemma TokenPrints(text: string, max: nat)
    ensures Printable(Token(text), max) <==> Max(Min(|text|, 48), 1) <= max
  {
    TokenLength(text);
    TokenIsPrintable(text);
    hide Token;
    assert forall i :: 0 <= i < |Token(text)| ==> Token(text)[i] in Token(text);
  }

  lemma IdentityNamesAreSdNames()
    ensures SdName("ulpf@32473") && SdName("schemaVersion") && SdName("eventId") && SdName("rawSha256")
  {
  }

  lemma PackNamesAreSdNames()
    ensures SdName("sourcePack") && SdName("sourcePackVersion")
    ensures SdName("parser") && SdName("parserVersion") && SdName("quality")
  {
  }

  lemma NamesAreSdNames(e: Exported)
    ensures SdName("ulpf@32473") && forall i :: 0 <= i < |Params(e)| ==> SdName(Params(e)[i].key)
  {
    hide SdName;
    IdentityNamesAreSdNames();
    PackNamesAreSdNames();
  }

  /** The printer cuts every token at 48 characters, but a MSGID has at most 32. So the line it prints keeps the
      limits of the standard if and only if the event type has at most 32 characters. */
  lemma LineConformsIff(e: Exported, timestamp: string)
    requires ' ' !in timestamp
    ensures ReadLine(SyslogLine(e, timestamp)).Some?
    ensures Conforms(ReadLine(SyslogLine(e, timestamp)).value) <==> |e.eventType| <= 32
    ensures 128 <= Priority(e.severity) <= 135
  {
    hide ReadLine, SyslogLine, Params, Token, SdName, IntText, Message;
    LineReadsBack(e, timestamp);
    TokenPrints(e.hostname, 255);
    TokenPrints(e.eventType, 32);
    NamesAreSdNames(e);
    assert Printable("ulpf-prism", 48) && Printable("-", 128);
    hide Printable;
  }

  /** An event type of 33 characters. */
  lemma LongTypeBreaksLimit(e: Exported, timestamp: string)
    requires ' ' !in timestamp && e.eventType == seq(33, i => 'a')
    ensures ReadLine(SyslogLine(e, timestamp)).Some? && !Conforms(ReadLine(SyslogLine(e, timestamp)).value)
  {
    LineConformsIff(e, timestamp);
    hide ReadLine, SyslogLine, Conforms;
  }

  // ---- what the line says ----------------------------------------------------------------------------------

  /** A parameter name and the value the event gives it. */
  predicate Traces(e: Exported, key: string, value: string) {
    || (key == "schemaVersion" && value == e.schemaVersion) || (key == "eventId" && value == e.id)
    || (key == "rawSha256" && value == e.rawSha256)
    || (key == "sourcePack" && value == e.packName) || (key == "sourcePackVersion" && value == e.packVersion)
    || (key == "parser" && value == e.parserName) || (key == "parserVersion" && value == e.parserVersion)
    || (key == "quality" && value == e.quality)
  }

  /** The structured data traces what the event gives, and nothing else. */
  lemma ParamsTrace(e: Exported, key: string, value: string)
    ensures Field(key, value) in Params(e) <==> Traces(e, key, value)
  {
    var x, p := Field(key, value), Params(e);
    assert x in p <==> x == p[0] || x == p[1] || x == p[2] || x == p[3] || x == p[4] || x == p[5] || x == p[6] || x == p[7];
  }

  /** The priority is that of facility 16, with the severity number kept between 0 and 7. */
  lemma PriorityIs(severity: int)
    ensures 0 <= severity <= 7 ==> Priority(severity) == 128 + severity
    ensures severity < 0 ==> Priority(severity) == 128
    ensures severity > 7 ==> Priority(severity) == 135
  {
  }

  /** A token shows up to 48 characters of its text, each one that can be shown as it is and an underscore for
      each that cannot. An empty text is a dash. */
  lemma TokenShows(text: string)
    ensures text == "" ==> Token(text) == "-"
    ensures text != "" ==> |Token(text)| == Min(|text|, 48)
    ensures text != "" ==>
              forall i :: 0 <= i < |Token(text)| ==> Token(text)[i] == if '!' <= text[i] <= '~' then text[i] else '_'
  {
    var t := if text == "" then "-" else text;
    assert forall i :: 0 <= i < |Token(text)| ==> Token(text)[i] == Visible(t[i]);
    if text == "" {
      assert |Token(text)| == 1 && Token(text)[0] == Visible('-') == '-';
    }
  }

  /** The message is the event's, or its name if it has none, character by character, with spaces for line
      breaks. */
  lemma MessageShows(e: Exported)
    ensures var said := if e.message == "" then e.name else e.message;
            && |Message(e)| == |said|
            && forall i :: 0 <= i < |said| ==> Message(e)[i] == if said[i] in {'\r', '\n'} then ' ' else said[i]
  {
  }
}
