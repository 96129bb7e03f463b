/** CEF: the serializer's escaping and the parser's header split, each against the other. */
module Cef {
  import opened Common
  import opened Escaping
  import opened Exports

  // ---- escaping --------------------------------------------------------------------------------------

  const HEADER_RULES: seq<Rule> := [Rule('\\', "\\\\"), Rule('\r', "\\r"), Rule('\n', "\\n"), Rule('|', "\\|")]
  const EXTENSION_RULES: seq<Rule> := HEADER_RULES + [Rule('=', "\\=")]

  const HEADER := Code(
    map['\\' := '\\', '\r' := 'r', '\n' := 'n', '|' := '|'],
    map['\\' := '\\', 'r' := '\r', 'n' := '\n', '|' := '|'])
  const EXTENSION := Code(HEADER.letter['=' := '='], HEADER.meaning['=' := '='])

  function CodeFor(extension: bool): Code {
    if extension then EXTENSION else HEADER
  }

  function RulesFor(extension: bool): seq<Rule> {
    if extension then EXTENSION_RULES else HEADER_RULES
  }

  lemma HeaderRulesOnChar(c: char)
    ensures Chain([c], HEADER_RULES) == EscapeChar(HEADER, c)
  {
    hide Replace;
    var done := [c];
    ChainOnChar(c, [], done, Rule('\\', "\\\\"));
    done := if c == '\\' then "\\\\" else [c];
    assert [] + [HEADER_RULES[0]] == HEADER_RULES[..1];
    ChainOnChar(c, HEADER_RULES[..1], done, Rule('\r', "\\r"));
    done := if c == '\r' then "\\r" else done;
    assert HEADER_RULES[..1] + [HEADER_RULES[1]] == HEADER_RULES[..2];
    ChainOnChar(c, HEADER_RULES[..2], done, Rule('\n', "\\n"));
    done := if c == '\n' then "\\n" else done;
    assert HEADER_RULES[..2] + [HEADER_RULES[2]] == HEADER_RULES[..3];
    ChainOnChar(c, HEADER_RULES[..3], done, Rule('|', "\\|"));
    assert HEADER_RULES[..3] + [HEADER_RULES[3]] == HEADER_RULES;
  }

  lemma ExtensionRulesOnChar(c: char)
    ensures Chain([c], EXTENSION_RULES) == EscapeChar(EXTENSION, c)
  {
    HeaderRulesOnChar(c);
    ChainOnChar(c, HEADER_RULES, EscapeChar(HEADER, c), Rule('=', "\\="));
    hide Chain;
  }

  /** `_escape`: one replacement after the other. The result is the single-pass escape. */
  method EscapeText(text: string, extension: bool) returns (escaped: string)
    ensures escaped == Escape(CodeFor(extension), text)
  {
    hide Replace, Escape;
    escaped := Replace(text, '\\', "\\\\");
    escaped := Replace(escaped, '\r', "\\r");
    escaped := Replace(escaped, '\n', "\\n");
    escaped := Replace(escaped, '|', "\\|");
    assert escaped == Chain(text, HEADER_RULES);
    ChainAppend(text, HEADER_RULES, Rule('=', "\\="));
    if extension {
      escaped := Replace(escaped, '=', "\\=");
    }
    ChainIsEscape(text, extension);
  }

  lemma ChainIsEscape(text: string, extension: bool)
    ensures Chain(text, RulesFor(extension)) == Escape(CodeFor(extension), text)
  {
    hide Chain, EscapeChar;
    forall c ensures Chain([c], RulesFor(extension)) == EscapeChar(CodeFor(extension), c) {
      HeaderRulesOnChar(c);
      ExtensionRulesOnChar(c);
    }
    ChainIsSinglePass(text, RulesFor(extension), CodeFor(extension));
  }

  lemma CodesAreProper()
    ensures Proper(HEADER) && Proper(EXTENSION)
  {
  }

  // ---- the serializer ----------------------------------------------------------------------------------

  function PeerFields(p: Peer, ipKey: string, portKey: string): seq<Field> {
    (if p.ip != "" then [Field(ipKey, p.ip)] else [])
    + (if p.port.Some? then [Field(portKey, IntText(p.port.value))] else [])
  }

  function BaseFields(e: Exported): seq<Field> {
    [Field("schemaVersion", e.schemaVersion), Field("externalId", e.id), Field("rawSha256", e.rawSha256),
     Field("sourcePack", e.packName), Field("sourcePackVersion", e.packVersion), Field("parser", e.parserName),
     Field("parserVersion", e.parserVersion), Field("quality", e.quality), Field("act", e.action)]
  }

  function ExtensionFields(e: Exported): seq<Field> {
    BaseFields(e) + (if e.message != "" then [Field("msg", e.message)] else [])
    + PeerFields(e.source, "src", "spt") + PeerFields(e.destination, "dst", "dpt")
  }

  function PrintField(x: Field): string {
    x.key + "=" + Escape(EXTENSION, x.value)
  }

  function PrintFields(fields: seq<Field>): string {
    if fields == [] then ""
    else if |fields| == 1 then PrintField(fields[0])
    else PrintField(fields[0]) + " " + PrintFields(fields[1..])
  }

  /** The header's escaped values, then what follows. */
  function PrintHeader(values: seq<string>, rest: string): string {
    if values == [] then rest else Escape(HEADER, values[0]) + "|" + PrintHeader(values[1..], rest)
  }

  function CefLine(e: Exported): string {
    "CEF:0|ULPF|Prism|"
    + PrintHeader([e.schemaVersion, e.eventType, e.name], IntText(e.severity) + "|" + PrintFields(ExtensionFields(e)))
  }

  method SerializeCef(e: Exported) returns (line: string)
    ensures line == CefLine(e)
  {
    hide Escape, IntText, PrintFields, ExtensionFields;
    var fields := CollectFields(e);
    var extension := JoinFields(fields);
    var schema := EscapeText(e.schemaVersion, false);
    var eventType := EscapeText(e.eventType, false);
    var name := EscapeText(e.name, false);
    line := "CEF:0|ULPF|Prism|" + (schema + "|" + (eventType + "|" + (name + "|" + (IntText(e.severity) + "|" + extension))));
    HeaderOfThree(e.schemaVersion, e.eventType, e.name, IntText(e.severity) + "|" + extension);
    hide PrintHeader;
  }

  method CollectFields(e: Exported) returns (fields: seq<Field>)
    ensures fields == ExtensionFields(e)
  {
    hide IntText;
    fields := [
      Field("schemaVersion", e.schemaVersion), Field("externalId", e.id), Field("rawSha256", e.rawSha256),
      Field("sourcePack", e.packName), Field("sourcePackVersion", e.packVersion), Field("parser", e.parserName),
      Field("parserVersion", e.parserVersion), Field("quality", e.quality), Field("act", e.action)];
    assert fields == BaseFields(e);
    hide BaseFields;
    if e.message != "" {
      fields := fields + [Field("msg", e.message)];
    }
    fields := AppendPeer(fields, e.source, "src", "spt");
    fields := AppendPeer(fields, e.destination, "dst", "dpt");
  }

  method AppendPeer(before: seq<Field>, p: Peer, ipKey: string, portKey: string) returns (fields: seq<Field>)
    ensures fields == before + PeerFields(p, ipKey, portKey)
  {
    hide IntText;
    fields := before;
    if p.ip != "" {
      fields := fields + [Field(ipKey, p.ip)];
    }
    if p.port.Some? {
      fields := fields + [Field(portKey, IntText(p.port.value))];
    }
  }

  lemma HeaderOfThree(a: string, b: string, c: string, rest: string)
    ensures PrintHeader([a, b, c], rest)
         == Escape(HEADER, a) + "|" + (Escape(HEADER, b) + "|" + (Escape(HEADER, c) + "|" + rest))
  {
    hide Escape;
    assert [a, b, c][1..] == [b, c] && [b, c][1..] == [c] && [c][1..] == [];
    assert PrintHeader([c], rest) == Escape(HEADER, c) + "|" + rest;
    assert PrintHeader([b, c], rest) == Escape(HEADER, b) + "|" + PrintHeader([c], rest);
  }

  method JoinFields(fields: seq<Field>) returns (text: string)
    ensures text == PrintFields(fields)
  {
    hide Escape;
    text := "";
    for i := |fields| downto 0
      invariant text == PrintFields(fields[i..])
    {
      var value := EscapeText(fields[i].value, true);
      assert fields[i..][1..] == fields[i + 1..];
      if i + 1 == |fields| {
        text := fields[i].key + "=" + value;
      } else {
        text := fields[i].key + "=" + value + " " + text;
      }
    }
    assert fields[0..] == fields;
  }

  // ---- reading the extension -----------------------------------------------------------------------------

  /** A key that can be told from the value before it. */
  predicate PlainKey(key: string) {
    forall c :: c in key ==> c != ' ' && c != '=' && c != '\\' && c != '|'
  }

  /** The text before the last space and the text after it. */
  function SplitLast(s: string): (string, string) {
    if s == "" then ("", "")
    else if s[|s| - 1] == ' ' then (s[..|s| - 1], "")
    else
      var (left, right) := SplitLast(s[..|s| - 1]);
      (left, right + [s[|s| - 1]])
  }

  /** A reader of the extension that knows the escapes: each bare equals sign ends a key, and the key is the
      word before it. */
  function ReadFields(key: string, s: string): seq<Field>
    decreases |s|
  {
    var next := ReadUntil(EXTENSION, s, '=');
    if next.None? then [Field(key, Decode(EXTENSION, s))]
    else
      var (value, nextKey) := SplitLast(next.value.0);
      [Field(key, value)] + ReadFields(nextKey, next.value.1)
  }

  function ReadExtension(s: string): Option<seq<Field>> {
    var first := ReadUntil(EXTENSION, s, '=');
    if first.None? then None else Some(ReadFields(first.value.0, first.value.1))
  }

  lemma {:induction false} SplitsAtKey(value: string, key: string)
    requires ' ' !in key
    ensures SplitLast(value + " " + key) == (value, key)
  {
    var s := value + " " + key;
    if key == "" {
      assert s[..|s| - 1] == value;
    } else {
      var front := key[..|key| - 1];
      SplitsAtKey(value, front);
      assert s[..|s| - 1] == value + " " + front;
      assert s[|s| - 1] == key[|key| - 1];
      assert front + [key[|key| - 1]] == key;
    }
  }

  lemma {:induction false} FieldsReadBack(fields: seq<Field>)
    requires fields != [] && forall i :: 0 <= i < |fields| ==> PlainKey(fields[i].key)
    ensures ReadFields(fields[0].key, PrintFields(fields)[|fields[0].key| + 1..]) == fields
  {
    hide ReadUntil, Decode, Escape, Proper, SplitLast;
    CodesAreProper();
    var value := fields[0].value;
    var s := PrintFields(fields)[|fields[0].key| + 1..];
    if |fields| == 1 {
      assert s == Escape(EXTENSION, value);
      NoBareDelimiter(EXTENSION, value, '=');
      DecodeInvertsEscape(EXTENSION, value);
    } else {
      var key, after := fields[1].key, PrintFields(fields[1..])[|fields[1].key| + 1..];
      NextField(fields);
      ReadsBack(EXTENSION, value, " " + key, '=', after);
      assert value + (" " + key) == value + " " + key;
      SplitsAtKey(value, key);
      FieldsReadBack(fields[1..]);
    }
  }

  lemma DropsPrefix(a: string, b: string)
    ensures (a + b)[|a|..] == b
  {
  }

  lemma NextField(fields: seq<Field>)
    requires |fields| > 1
    ensures |PrintFields(fields[1..])| > |fields[1].key|
    ensures PrintFields(fields)[|fields[0].key| + 1..]
         == Escape(EXTENSION, fields[0].value) + (" " + fields[1].key + "=" + PrintFields(fields[1..])[|fields[1].key| + 1..])
  {
    hide Escape;
    var rest, start, key := PrintFields(fields[1..]), fields[0].key + "=", fields[1].key + "=";
    var value := Escape(EXTENSION, fields[0].value);
    StartsWithKey(fields[1..]);
    hide PrintFields;
    var after := rest[|key|..];
    DropsPrefix(start, value + (" " + rest));
    assert PrintFields(fields) == start + (value + (" " + rest)) by {
      JoinsNext(fields);
    }
    assert " " + rest == " " + fields[1].key + "=" + after;
  }

  lemma StartsWithKey(fields: seq<Field>)
    requires fields != []
    ensures var key := fields[0].key + "="; |PrintFields(fields)| >= |key| && PrintFields(fields) == key + PrintFields(fields)[|key|..]
  {
    hide Escape;
    var key := fields[0].key + "=";
    assert PrintFields(fields)[..|key|] == key;
  }

  lemma JoinsNext(fields: seq<Field>)
    requires |fields| > 1
    ensures PrintFields(fields)
         == fields[0].key + "=" + (Escape(EXTENSION, fields[0].value) + (" " + PrintFields(fields[1..])))
  {
    hide Escape;
  }

  lemma AllFieldsReadBack(fields: seq<Field>)
    requires fields != [] && forall i :: 0 <= i < |fields| ==> PlainKey(fields[i].key)
    ensures ReadExtension(PrintFields(fields)) == Some(fields)
  {
    hide ReadUntil, Escape, Proper, ReadFields;
    var s, key := PrintFields(fields), fields[0].key;
    var after := s[|key| + 1..];
    StartsWithKey(fields);
    hide PrintFields;
    assert PlainKey(key);
    ReadsPlain(EXTENSION, key, '=', after);
    assert s == key + ['='] + after;
    FieldsReadBack(fields);
  }

  lemma IdentityKeysArePlain()
    ensures PlainKey("schemaVersion") && PlainKey("externalId") && PlainKey("rawSha256")
  {
  }

  lemma PackKeysArePlain()
    ensures PlainKey("sourcePack") && PlainKey("sourcePackVersion") && PlainKey("parser")
  {
  }

  lemma OutcomeKeysArePlain()
    ensures PlainKey("parserVersion") && PlainKey("quality") && PlainKey("act")
  {
  }

  lemma BaseKeysArePlain(e: Exported)
    ensures forall i :: 0 <= i < |BaseFields(e)| ==> PlainKey(BaseFields(e)[i].key)
  {
    hide PlainKey;
    IdentityKeysArePlain();
    PackKeysArePlain();
    OutcomeKeysArePlain();
  }

  lemma KeysArePlain(e: Exported)
    ensures forall i :: 0 <= i < |ExtensionFields(e)| ==> PlainKey(ExtensionFields(e)[i].key)
  {
    BaseKeysArePlain(e);
    assert PlainKey("msg") && PlainKey("src") && PlainKey("spt") && PlainKey("dst") && PlainKey("dpt");
    hide PlainKey, BaseFields;
  }

  /** Whatever the values hold, the extension can be read back in full: every field, evidence identity
      included, with its exact value, and each address under the key of its own side. */
  lemma ExtensionReadsBack(e: Exported)
    ensures ReadExtension(PrintFields(ExtensionFields(e))) == Some(ExtensionFields(e))
    ensures Field("externalId", e.id) in ExtensionFields(e) && Field("rawSha256", e.rawSha256) in ExtensionFields(e)
    ensures forall ip :: Field("src", ip) in ExtensionFields(e) <==> ip == e.source.ip && ip != ""
    ensures forall ip :: Field("dst", ip) in ExtensionFields(e) <==> ip == e.destination.ip && ip != ""
  {
    hide PrintFields, ReadExtension, PlainKey, IntText;
    forall ip ensures Field("src", ip) in ExtensionFields(e) <==> ip == e.source.ip && ip != ""
      ensures Field("dst", ip) in ExtensionFields(e) <==> ip == e.destination.ip && ip != ""
    {
      ExtensionNamesPeers(e, ip);
    }
    KeysArePlain(e);
    AllFieldsReadBack(ExtensionFields(e));
    assert ExtensionFields(e)[1] == Field("externalId", e.id) && ExtensionFields(e)[2] == Field("rawSha256", e.rawSha256);
  }

  /** An address is reported under the key of its own side, and only when the event has one. */
  lemma ExtensionNamesPeers(e: Exported, ip: string)
    ensures Field("src", ip) in ExtensionFields(e) <==> ip == e.source.ip && ip != ""
    ensures Field("dst", ip) in ExtensionFields(e) <==> ip == e.destination.ip && ip != ""
  {
    hide IntText;
    assert forall i :: 0 <= i < |BaseFields(e)| ==> BaseFields(e)[i].key !in {"src", "dst"};
    hide BaseFields;
  }

  /** A key and the value the event gives it. */
  predicate Reports(e: Exported, key: string, value: string) {
    || (key == "schemaVersion" && value == e.schemaVersion) || (key == "externalId" && value == e.id)
    || (key == "rawSha256" && value == e.rawSha256)
    || (key == "sourcePack" && value == e.packName) || (key == "sourcePackVersion" && value == e.packVersion)
    || (key == "parser" && value == e.parserName) || (key == "parserVersion" && value == e.parserVersion)
    || (key == "quality" && value == e.quality) || (key == "act" && value == e.action)
    || (key == "msg" && value == e.message && value != "")
    || (key == "src" && value == e.source.ip && value != "") || (key == "dst" && value == e.destination.ip && value != "")
    || (key == "spt" && e.source.port.Some? && value == IntText(e.source.port.value))
    || (key == "dpt" && e.destination.port.Some? && value == IntText(e.destination.port.value))
  }

  /** The extension reports what the event gives, and nothing else. */
  lemma ExtensionReports(e: Exported, key: string, value: string)
    ensures Field(key, value) in ExtensionFields(e) <==> Reports(e, key, value)
  {
    hide IntText;
    var x := Field(key, value);
    var base, message := BaseFields(e), if e.message != "" then [Field("msg", e.message)] else [];
    var source, destination := PeerFields(e.source, "src", "spt"), PeerFields(e.destination, "dst", "dpt");
    assert x in base <==>
           (x == base[0] || x == base[1] || x == base[2] || x == base[3] || x == base[4] || x == base[5] || x == base[6]
            || x == base[7] || x == base[8]);
    PeerReports(e.source, "src", "spt", x);
    PeerReports(e.destination, "dst", "dpt", x);
    hide PeerFields;
    assert x in message <==> e.message != "" && x == Field("msg", e.message);
    assert x in ExtensionFields(e) <==> x in base || x in message || x in source || x in destination;
  }

  lemma PeerReports(p: Peer, ipKey: string, portKey: string, x: Field)
    ensures x in PeerFields(p, ipKey, portKey) <==>
            || (p.ip != "" && x == Field(ipKey, p.ip))
            || (p.port.Some? && x == Field(portKey, IntText(p.port.value)))
  {
    hide IntText;
  }

  // ---- the parser ----------------------------------------------------------------------------------------

  /** `re.split(r"(?<!\\)\|", s, maxsplit=n)`: a pipe separates unless the character before it is a backslash.
      `after` says whether `s` follows one. */
  function Split(s: string, after: bool, n: nat): (pieces: seq<string>)
    ensures |pieces| >= 1
  {
    if n == 0 || s == "" then [s]
    else if s[0] == '|' && !after then [""] + Split(s[1..], false, n - 1)
    else
      var rest := Split(s[1..], s[0] == '\\', n);
      [[s[0]] + rest[0]] + rest[1..]
  }

  /** `value.replace("\\|", "|")` */
  function Unescape(s: string): string {
    if s == "" then ""
    else if s[0] == '\\' && |s| > 1 && s[1] == '|' then "|" + Unescape(s[2..])
    else [s[0]] + Unescape(s[1..])
  }

  const HEADER_FIELDS: seq<string> :=
    ["cef_version", "device_vendor", "device_product", "device_version", "signature_id", "name", "severity"]

  datatype ParsedCef = ParsedCef(header: map<string, string>, extension: map<string, string>)

  datatype Outcome = NotCef | TooFewFields(found: nat) | Parsed(cef: ParsedCef)

  /** What the parser calls: stripping of white space, and the key-value parser of the extension, whose
      failure leaves an empty extension. */
  datatype Library = Library(space: char -> bool, keyValues: string -> Option<map<string, string>>)

  function StripLeft(l: Library, s: string): string {
    if s != "" && l.space(s[0]) then StripLeft(l, s[1..]) else s
  }

  function StripRight(l: Library, s: string): string {
    if s != "" && l.space(s[|s| - 1]) then StripRight(l, s[..|s| - 1]) else s
  }

  function Strip(l: Library, s: string): string {
    StripRight(l, StripLeft(l, s))
  }

  function HeaderOf(parts: seq<string>, n: nat): map<string, string>
    requires n <= |HEADER_FIELDS| && n <= |parts|
  {
    if n == 0 then map[] else HeaderOf(parts, n - 1)[HEADER_FIELDS[n - 1] := Unescape(parts[n - 1])]
  }

  function Parse(l: Library, payload: string): Outcome {
    var text := Strip(l, payload);
    if !("CEF:" <= text) then NotCef
    else
      var parts := Split(text[4..], false, 7);
      if |parts| < 8 then TooFewFields(|parts|)
      else Parsed(ParsedCef(HeaderOf(parts, 7), l.keyValues(parts[7]).GetOr(map[])))
  }

  method ParseCef(l: Library, payload: string) returns (r: Outcome)
    ensures r == Parse(l, payload)
  {
    hide Split, Unescape, Strip;
    var text := Strip(l, payload);
    if !("CEF:" <= text) {
      return NotCef;
    }
    var parts := Split(text[4..], false, 7);
    if |parts| < 8 {
      return TooFewFields(|parts|);
    }
    var header: map<string, string> := map[];
    for i := 0 to 7
      invariant header == HeaderOf(parts, i)
    {
      header := header[HEADER_FIELDS[i] := Unescape(parts[i])];
    }
    var extension := l.keyValues(parts[7]);
    r := Parsed(ParsedCef(header, if extension.Some? then extension.value else map[]));
  }

  // ---- the header round trip -----------------------------------------------------------------------------

  /** A value the header carries faithfully. */
  predicate Clean(s: string) {
    forall i :: 0 <= i < |s| ==> !Special(s[i])
  }

  predicate Special(c: char) { c == '\\' || c == '\r' || c == '\n' }

  function Specials(s: string): nat {
    if s == "" then 0 else (if Special(s[0]) then 1 else 0) + Specials(s[1..])
  }

  lemma CleanTail(s: string)
    requires s != ""
    ensures Clean(s) <==> !Special(s[0]) && Clean(s[1..])
  {
    hide Special;
    assert s == [s[0]] + s[1..];
    if Clean(s) {
      forall i | 0 <= i < |s| - 1 ensures !Special(s[1..][i]) {
        assert s[1..][i] == s[i + 1];
      }
    }
  }

  lemma {:induction false} CleanIff(s: string)
    ensures Clean(s) <==> Specials(s) == 0
  {
    if s != "" {
      CleanIff(s[1..]);
      CleanTail(s);
    }
  }

  lemma {:induction false} CleanSurvives(s: string)
    requires Clean(s)
    ensures Unescape(Escape(HEADER, s)) == s
  {
    if s != "" {
      CleanTail(s);
      CleanSurvives(s[1..]);
      hide Clean;
      assert Escape(HEADER, s)[|EscapeChar(HEADER, s[0])|..] == Escape(HEADER, s[1..]);
    }
  }

  /** Unescaping never makes up for a special character, whatever follows the value. */
  lemma {:induction false} SpecialsGrow(s: string, t: string)
    ensures |Unescape(Escape(HEADER, s) + t)| >= |s| + Specials(s)
  {
    if s != "" {
      SpecialsGrow(s[1..], t);
      var next := Escape(HEADER, s[1..]) + t;
      assert Escape(HEADER, s) + t == EscapeChar(HEADER, s[0]) + next;
      if s[1..] != "" {
        NoLeadingPipe(s[1..], t);
      }
      UnescapeGrows(s[0], next, s[1..] == "");
    }
  }

  lemma UnescapeGrows(c: char, next: string, last: bool)
    requires last || (next != "" && next[0] != '|')
    ensures var grown := |Unescape(EscapeChar(HEADER, c) + next)|;
            grown >= (if Special(c) then 2 else 1) + (if last then 0 else |Unescape(next)|)
    ensures !Special(c) ==> |Unescape(EscapeChar(HEADER, c) + next)| == 1 + |Unescape(next)|
  {
    var e := EscapeChar(HEADER, c);
    assert (e + next)[|e|..] == next;
    if |e| == 2 {
      assert (e + next)[1..] == [e[1]] + next;
      assert ([e[1]] + next)[1..] == next;
    }
  }

  lemma NoLeadingPipe(s: string, t: string)
    requires s != ""
    ensures (Escape(HEADER, s) + t)[0] != '|'
  {
  }

  lemma SplitSteps(c: char, t: string, after: bool, n: nat)
    requires c != '|' || after
    ensures var rest := Split(t, c == '\\', n); Split([c] + t, after, n) == [[c] + rest[0]] + rest[1..]
  {
    assert ([c] + t)[1..] == t;
    if n == 0 {
      assert Split(t, c == '\\', 0) == [t];
    }
  }

  predicate EndsEscaping(s: string, after: bool) {
    if s == "" then after else s[|s| - 1] == '\\'
  }

  /** The split passes over an escaped value without separating. */
  lemma {:induction false} SplitPassesValue(s: string, after: bool, t: string, n: nat)
    ensures var rest := Split(t, EndsEscaping(s, after), n);
            Split(Escape(HEADER, s) + t, after, n) == [Escape(HEADER, s) + rest[0]] + rest[1..]
  {
    hide Split;
    if s == "" {
      assert Escape(HEADER, s) + t == t;
      var rest := Split(t, after, n);
      assert rest == [rest[0]] + rest[1..] && Escape(HEADER, s) + rest[0] == rest[0];
    } else {
      var c, next := s[0], Escape(HEADER, s[1..]) + t;
      var e := EscapeChar(HEADER, c);
      SplitPassesValue(s[1..], c == '\\', t, n);
      assert EndsEscaping(s, after) == EndsEscaping(s[1..], c == '\\');
      assert Escape(HEADER, s) + t == e + next;
      if |e| == 2 {
        SplitSteps(e[1], next, true, n);
        SplitSteps('\\', [e[1]] + next, after, n);
        assert e + next == ['\\'] + ([e[1]] + next);
        assert forall x: string :: ['\\'] + ([e[1]] + x) == e + x;
      } else {
        SplitSteps(c, next, after, n);
      }
      var rest := Split(t, EndsEscaping(s, after), n);
      assert e + (Escape(HEADER, s[1..]) + rest[0]) == Escape(HEADER, s) + rest[0];
    }
  }

  /** One header value: it comes back if and only if it is clean, and then the split stops right after it. */
  lemma ValueComesBackIff(v: string, rest: string, n: nat)
    ensures var parts := Split(Escape(HEADER, v) + "|" + rest, false, n + 1);
            && (Unescape(parts[0]) == v <==> Clean(v))
            && (Clean(v) ==> parts == [Escape(HEADER, v)] + Split(rest, false, n))
  {
    hide Unescape, Escape, Clean;
    var t := "|" + rest;
    assert Escape(HEADER, v) + "|" + rest == Escape(HEADER, v) + t;
    SplitPassesValue(v, false, t, n + 1);
    CleanIff(v);
    var tail := Split(t, EndsEscaping(v, false), n + 1);
    SpecialsGrow(v, tail[0]);
    if Clean(v) {
      CleanDoesNotEscape(v);
      CleanSurvives(v);
      assert t[1..] == rest;
      assert tail == [""] + Split(rest, false, n);
      assert Escape(HEADER, v) + "" == Escape(HEADER, v);
    }
  }

  lemma CleanDoesNotEscape(v: string)
    requires Clean(v)
    ensures !EndsEscaping(v, false)
  {
    assert v != "" ==> !Special(v[|v| - 1]);
  }

  lemma {:induction false} CleanHeaderSplits(values: seq<string>, rest: string)
    requires forall i :: 0 <= i < |values| ==> Clean(values[i])
    ensures var parts := Split(PrintHeader(values, rest), false, |values|);
            && |parts| == |values| + 1 && parts[|values|] == rest
            && forall i :: 0 <= i < |values| ==> Unescape(parts[i]) == values[i]
  {
    hide Unescape, Escape, Clean;
    if values != [] {
      var more := values[1..];
      CleanHeaderSplits(more, rest);
      ValueComesBackIff(values[0], PrintHeader(more, rest), |more|);
      hide Split;
      var parts, others := Split(PrintHeader(values, rest), false, |values|), Split(PrintHeader(more, rest), false, |more|);
      assert parts == [Escape(HEADER, values[0])] + others;
      forall i | 0 <= i < |values| ensures Unescape(parts[i]) == values[i] {
        if i > 0 {
          assert parts[i] == others[i - 1] && more[i - 1] == values[i];
        }
      }
    }
  }

  lemma {:induction false} ValuesThatComeBackAreClean(values: seq<string>, rest: string, k: nat)
    requires k <= |values| && k <= |Split(PrintHeader(values, rest), false, |values|)|
    requires forall i :: 0 <= i < k ==>
               Clean(values[i]) || Unescape(Split(PrintHeader(values, rest), false, |values|)[i]) == values[i]
    ensures forall i :: 0 <= i < k ==> Clean(values[i])
  {
    hide Unescape, Escape, Clean;
    if k > 0 {
      var more := values[1..];
      ValueComesBackIff(values[0], PrintHeader(more, rest), |more|);
      assert Clean(values[0]);
      hide Split;
      var parts, others := Split(PrintHeader(values, rest), false, |values|), Split(PrintHeader(more, rest), false, |more|);
      assert parts == [Escape(HEADER, values[0])] + others;
      forall i | 0 <= i < k - 1 ensures Clean(more[i]) || Unescape(others[i]) == more[i] {
        assert parts[i + 1] == others[i] && more[i] == values[i + 1];
      }
      ValuesThatComeBackAreClean(more, rest, k - 1);
      forall i | 0 <= i < k ensures Clean(values[i]) {
        if i > 0 {
          assert more[i - 1] == values[i];
        }
      }
    }
  }

  /** White space is neither the first letter of a CEF line nor that of its extension. */
  predicate LawfulLibrary(l: Library) {
    !l.space('C') && !l.space('s')
  }

  /** The seven header values the serializer writes, the severity included. */
  function HeaderValues(e: Exported): seq<string> {
    ["0", "ULPF", "Prism", e.schemaVersion, e.eventType, e.name, IntText(e.severity)]
  }

  lemma {:induction false} PlainEscapes(s: string)
    requires forall i :: 0 <= i < |s| ==> s[i] !in HEADER.letter
    ensures Escape(HEADER, s) == s
  {
    if s != "" {
      PlainEscapes(s[1..]);
      assert s == [s[0]] + s[1..];
    }
  }

  lemma NumeralIsPlain(s: string)
    requires Numeral(s)
    ensures Escape(HEADER, s) == s && Clean(s)
  {
    assert forall i :: 0 <= i < |s| ==> s[i] in s;
    PlainEscapes(s);
    hide Escape;
  }

  lemma FixedValuesArePlain()
    ensures Escape(HEADER, "0") == "0" && Clean("0")
    ensures Escape(HEADER, "ULPF") == "ULPF" && Clean("ULPF")
    ensures Escape(HEADER, "Prism") == "Prism" && Clean("Prism")
  {
    PlainEscapes("0");
    PlainEscapes("ULPF");
    PlainEscapes("Prism");
    hide Escape;
  }

  /** The line is the seven escaped values followed by the extension. */
  lemma LineIsHeaderAndExtension(e: Exported)
    ensures CefLine(e) == "CEF:" + PrintHeader(HeaderValues(e), PrintFields(ExtensionFields(e)))
  {
    hide Escape, IntText, PrintFields, ExtensionFields, Clean;
    var ext := PrintFields(ExtensionFields(e));
    FixedValuesArePlain();
    NumeralIsPlain(IntText(e.severity));
    var values := HeaderValues(e);
    var tail := PrintHeader([e.schemaVersion, e.eventType, e.name], IntText(e.severity) + "|" + ext);
    HeaderOfThree(e.schemaVersion, e.eventType, e.name, IntText(e.severity) + "|" + ext);
    HeaderOfThree(e.schemaVersion, e.eventType, e.name, PrintHeader([IntText(e.severity)], ext));
    HeaderConcat([e.schemaVersion, e.eventType, e.name], [IntText(e.severity)], ext);
    HeaderConcat(["0", "ULPF", "Prism"], [e.schemaVersion, e.eventType, e.name] + [IntText(e.severity)], ext);
    HeaderOfThree("0", "ULPF", "Prism", tail);
    assert PrintHeader([IntText(e.severity)], ext) == IntText(e.severity) + "|" + ext by {
      assert [IntText(e.severity)][1..] == [];
    }
    hide PrintHeader;
    assert values == ["0", "ULPF", "Prism"] + ([e.schemaVersion, e.eventType, e.name] + [IntText(e.severity)]);
    assert CefLine(e) == "CEF:0|ULPF|Prism|" + tail;
    assert "CEF:" + ("0" + "|" + ("ULPF" + "|" + ("Prism" + "|" + tail))) == "CEF:0|ULPF|Prism|" + tail;
  }

  lemma {:induction false} HeaderConcat(a: seq<string>, b: seq<string>, rest: string)
    ensures PrintHeader(a + b, rest) == PrintHeader(a, PrintHeader(b, rest))
  {
    hide Escape;
    if a == [] {
      assert a + b == b;
    } else {
      assert (a + b)[1..] == a[1..] + b;
      HeaderConcat(a[1..], b, rest);
    }
  }

  lemma {:induction false} HeaderRest(values: seq<string>, rest: string)
    ensures PrintHeader(values, rest) == PrintHeader(values, "") + rest
  {
    hide Escape;
    if values != [] {
      HeaderRest(values[1..], rest);
    } else {
      assert "" + rest == rest;
    }
  }

  lemma {:induction false} StripStops(l: Library, a: string, b: string)
    requires b != "" && !l.space(b[0])
    ensures StripRight(l, a + b) == a + StripRight(l, b)
  {
    assert (a + b)[|a + b| - 1] == b[|b| - 1];
    if l.space(b[|b| - 1]) {
      assert (a + b)[..|a + b| - 1] == a + b[..|b| - 1];
      StripStops(l, a, b[..|b| - 1]);
    }
  }

  lemma ExtensionStartsPlainly(e: Exported)
    ensures PrintFields(ExtensionFields(e)) != "" && PrintFields(ExtensionFields(e))[0] == 's'
  {
    hide Escape;
    var fields := ExtensionFields(e);
    assert PrintField(fields[0])[0] == 's';
  }

  /** What the parser splits: stripping shortens the extension at most. */
  lemma StrippedLine(l: Library, e: Exported)
    requires LawfulLibrary(l)
    ensures Strip(l, CefLine(e)) == "CEF:" + PrintHeader(HeaderValues(e), StripRight(l, PrintFields(ExtensionFields(e))))
  {
    hide PrintFields, ExtensionFields, PrintHeader, HeaderValues, CefLine, StripRight;
    var values, ext := HeaderValues(e), PrintFields(ExtensionFields(e));
    LineIsHeaderAndExtension(e);
    ExtensionStartsPlainly(e);
    HeaderRest(values, ext);
    HeaderRest(values, StripRight(l, ext));
    var before := "CEF:" + PrintHeader(values, "");
    assert CefLine(e) == before + ext;
    StripStops(l, before, ext);
  }

  lemma SevenFields(parts: seq<string>)
    requires |parts| >= 7
    ensures HeaderOf(parts, 7) == map[
      "cef_version" := Unescape(parts[0]), "device_vendor" := Unescape(parts[1]), "device_product" := Unescape(parts[2]),
      "device_version" := Unescape(parts[3]), "signature_id" := Unescape(parts[4]), "name" := Unescape(parts[5]),
      "severity" := Unescape(parts[6])]
  {
    hide Unescape;
    assert HeaderOf(parts, 1) == map["cef_version" := Unescape(parts[0])];
    assert HeaderOf(parts, 3) == HeaderOf(parts, 1)["device_vendor" := Unescape(parts[1])]["device_product" := Unescape(parts[2])];
    assert HeaderOf(parts, 5) ==
           HeaderOf(parts, 3)["device_version" := Unescape(parts[3])]["signature_id" := Unescape(parts[4])];
    assert HeaderOf(parts, 7) == HeaderOf(parts, 5)["name" := Unescape(parts[5])]["severity" := Unescape(parts[6])];
  }

  /** The parser returns every header value as it was. */
  predicate HeaderSurvives(l: Library, e: Exported) {
    var r := Parse(l, CefLine(e));
    r.Parsed? && r.cef.header == map[
      "cef_version" := "0", "device_vendor" := "ULPF", "device_product" := "Prism",
      "device_version" := e.schemaVersion, "signature_id" := e.eventType, "name" := e.name,
      "severity" := IntText(e.severity)]
  }

  predicate CleanHeader(e: Exported) {
    Clean(e.schemaVersion) && Clean(e.eventType) && Clean(e.name)
  }

  lemma HeaderSurvivesIfClean(l: Library, e: Exported)
    requires LawfulLibrary(l) && CleanHeader(e)
    ensures HeaderSurvives(l, e)
    ensures Parse(l, CefLine(e)).cef.extension == l.keyValues(StripRight(l, PrintFields(ExtensionFields(e)))).GetOr(map[])
  {
    hide PrintFields, ExtensionFields, PrintHeader, CefLine, StripRight, Strip, Split, Unescape, Escape, Clean, IntText, HeaderOf;
    var values, ext := HeaderValues(e), StripRight(l, PrintFields(ExtensionFields(e)));
    StrippedLine(l, e);
    FixedValuesArePlain();
    NumeralIsPlain(IntText(e.severity));
    CleanHeaderSplits(values, ext);
    var text := Strip(l, CefLine(e));
    var body := PrintHeader(values, ext);
    assert text[4..] == body && "CEF:" <= text;
    SevenFields(Split(body, false, 7));
  }

  lemma HeaderSurvivesOnlyIfClean(l: Library, e: Exported)
    requires LawfulLibrary(l) && HeaderSurvives(l, e)
    ensures CleanHeader(e)
  {
    hide PrintFields, ExtensionFields, PrintHeader, CefLine, StripRight, Strip, Split, Unescape, Escape, Clean, IntText, HeaderOf;
    var values, ext := HeaderValues(e), StripRight(l, PrintFields(ExtensionFields(e)));
    StrippedLine(l, e);
    FixedValuesArePlain();
    var text := Strip(l, CefLine(e));
    var body := PrintHeader(values, ext);
    assert text[4..] == body;
    var parts := Split(body, false, 7);
    SevenFields(parts);
    assert Unescape(parts[3]) == Parse(l, CefLine(e)).cef.header["device_version"];
    assert Unescape(parts[4]) == Parse(l, CefLine(e)).cef.header["signature_id"];
    assert Unescape(parts[5]) == Parse(l, CefLine(e)).cef.header["name"];
    ValuesThatComeBackAreClean(values, ext, 6);
    assert Clean(values[3]) && Clean(values[4]) && Clean(values[5]);
  }

  /** The header survives printing and parsing if and only if none of its values holds a backslash, a carriage
      return or a line feed. */
  lemma HeaderRoundTripsIff(l: Library, e: Exported)
    requires LawfulLibrary(l)
    ensures HeaderSurvives(l, e) <==> CleanHeader(e)
  {
    hide HeaderSurvives, CleanHeader;
    if CleanHeader(e) {
      HeaderSurvivesIfClean(l, e);
    }
    if HeaderSurvives(l, e) {
      HeaderSurvivesOnlyIfClean(l, e);
    }
  }

  // ---- what the parser makes of every header -----------------------------------------------------------

  /** A value after printing and parsing: backslashes doubled and line breaks spelled out. */
  function Reread(s: string): string {
    if s == "" then ""
    else
      (if s[0] == '\\' then "\\\\" else if s[0] == '\r' then "\\r" else if s[0] == '\n' then "\\n" else [s[0]])
      + Reread(s[1..])
  }

  lemma {:induction false} UnescapeRereads(s: string)
    ensures Unescape(Escape(HEADER, s)) == Reread(s)
  {
    if s != "" {
      UnescapeRereads(s[1..]);
      var next := Escape(HEADER, s[1..]);
      assert Escape(HEADER, s) == EscapeChar(HEADER, s[0]) + next;
      if s[1..] != "" {
        NoLeadingPipe(s[1..], "");
        assert next + "" == next;
      }
      UnescapesOne(s[0], next);
    }
  }

  lemma UnescapesOne(c: char, next: string)
    requires next == "" || next[0] != '|'
    ensures Unescape(EscapeChar(HEADER, c) + next) ==
            (if c == '\\' then "\\\\" else if c == '\r' then "\\r" else if c == '\n' then "\\n" else [c]) + Unescape(next)
  {
    var e := EscapeChar(HEADER, c);
    if |e| == 2 {
      UnescapesPair(e[1], next);
      assert e == ['\\', e[1]];
    } else {
      assert e == [c] && c != '\\';
      assert ([c] + next)[1..] == next;
    }
  }

  lemma UnescapesPair(c: char, next: string)
    requires next == "" || next[0] != '|'
    ensures Unescape(['\\', c] + next) == (if c == '|' then "|" else ['\\', c]) + Unescape(next)
  {
    var s := ['\\', c] + next;
    assert s[1..] == [c] + next && s[2..] == next;
    if c != '|' {
      assert Unescape(s) == ['\\'] + Unescape([c] + next);
      assert ([c] + next)[1..] == next;
      assert Unescape([c] + next) == [c] + Unescape(next);
    }
  }

  /** The header values that end in a backslash: their escape hides the pipe that follows it. */
  function Trailing(values: seq<string>): (n: nat)
    ensures n <= |values|
  {
    if values == [] then 0 else (if EndsEscaping(values[0], false) then 1 else 0) + Trailing(values[1..])
  }

  lemma SplitAfterValue(v: string, rest: string, n: nat)
    ensures var parts := Split(Escape(HEADER, v) + "|" + rest, false, n + 1);
            && (!EndsEscaping(v, false) ==> parts == [Escape(HEADER, v)] + Split(rest, false, n))
            && (EndsEscaping(v, false) ==> |parts| == |Split(rest, false, n + 1)|)
  {
    hide Escape;
    var t := "|" + rest;
    assert Escape(HEADER, v) + "|" + rest == Escape(HEADER, v) + t;
    SplitPassesValue(v, false, t, n + 1);
    assert t[1..] == rest;
    if EndsEscaping(v, false) {
      SplitSteps('|', rest, true, n + 1);
    } else {
      assert Escape(HEADER, v) + "" == Escape(HEADER, v);
    }
  }

  lemma {:induction false} HeaderPieces(values: seq<string>, rest: string, n: nat)
    requires n >= |values|
    ensures var k := Trailing(values);
            |Split(PrintHeader(values, rest), false, n)| == |values| - k + |Split(rest, false, n - |values| + k)|
  {
    hide Escape;
    if values != [] {
      SplitAfterValue(values[0], PrintHeader(values[1..], rest), n - 1);
      hide Split, EndsEscaping;
      HeaderPieces(values[1..], rest, if EndsEscaping(values[0], false) then n else n - 1);
    }
  }

  lemma {:induction false} HeaderPiecesAre(values: seq<string>, rest: string)
    requires Trailing(values) == 0
    ensures var parts := Split(PrintHeader(values, rest), false, |values|);
            && |parts| == |values| + 1 && parts[|values|] == rest
            && forall i :: 0 <= i < |values| ==> parts[i] == Escape(HEADER, values[i])
  {
    hide Escape, EndsEscaping;
    if values != [] {
      var more := values[1..];
      HeaderPiecesAre(more, rest);
      SplitAfterValue(values[0], PrintHeader(more, rest), |more|);
      hide Split;
      var parts, others := Split(PrintHeader(values, rest), false, |values|), Split(PrintHeader(more, rest), false, |more|);
      assert parts == [Escape(HEADER, values[0])] + others;
      forall i | 0 <= i < |values| ensures parts[i] == Escape(HEADER, values[i]) {
        if i > 0 {
          assert parts[i] == others[i - 1] && more[i - 1] == values[i];
        }
      }
    }
  }

  /** No pipe separates in `s`, which may follow a backslash. */
  predicate NoSeparator(s: string, after: bool) {
    s == "" || ((s[0] != '|' || after) && NoSeparator(s[1..], s[0] == '\\'))
  }

  lemma {:induction false} NoSeparatorStaysWhole(s: string, after: bool, n: nat)
    requires NoSeparator(s, after)
    ensures |Split(s, after, n)| == 1
  {
    if s != "" && n > 0 {
      NoSeparatorStaysWhole(s[1..], s[0] == '\\', n);
    }
  }

  lemma {:induction false} NoSeparatorPrefix(a: string, b: string, after: bool)
    requires NoSeparator(a + b, after)
    ensures NoSeparator(a, after)
  {
    if a != "" {
      assert (a + b)[1..] == a[1..] + b;
      NoSeparatorPrefix(a[1..], b, a[0] == '\\');
    }
  }

  lemma NoSeparatorWeakens(s: string)
    requires NoSeparator(s, false)
    ensures NoSeparator(s, true)
  {
  }

  lemma NoSeparatorOne(c: char, t: string)
    requires NoSeparator(t, false)
    ensures NoSeparator(EscapeChar(EXTENSION, c) + t, false)
    ensures c != '|' ==> NoSeparator([c] + t, false)
  {
    NoSeparatorWeakens(t);
    var e := EscapeChar(EXTENSION, c);
    assert ([c] + t)[1..] == t;
    if |e| == 2 {
      assert (e + t)[1..] == [e[1]] + t;
      assert ([e[1]] + t)[1..] == t;
    }
  }

  lemma {:induction false} NoSeparatorEscaped(v: string, t: string)
    requires NoSeparator(t, false)
    ensures NoSeparator(Escape(EXTENSION, v) + t, false)
  {
    hide NoSeparator, EscapeChar;
    if v == "" {
      assert Escape(EXTENSION, v) + t == t;
    } else {
      NoSeparatorEscaped(v[1..], t);
      NoSeparatorOne(v[0], Escape(EXTENSION, v[1..]) + t);
      assert Escape(EXTENSION, v) + t == EscapeChar(EXTENSION, v[0]) + (Escape(EXTENSION, v[1..]) + t);
    }
  }

  lemma {:induction false} NoSeparatorPlain(key: string, t: string)
    requires '|' !in key && NoSeparator(t, false)
    ensures NoSeparator(key + t, false)
  {
    hide NoSeparator;
    if key == "" {
      assert key + t == t;
    } else {
      assert key[0] in key;
      NoSeparatorPlain(key[1..], t);
      NoSeparatorOne(key[0], key[1..] + t);
      assert key + t == [key[0]] + (key[1..] + t);
    }
  }

  lemma {:induction false} ExtensionHasNoSeparator(fields: seq<Field>)
    requires forall i :: 0 <= i < |fields| ==> PlainKey(fields[i].key)
    ensures NoSeparator(PrintFields(fields), false)
  {
    hide NoSeparator, Escape, PrintField;
    if fields == [] {
      assert NoSeparator("", false) by { NoSeparatorNothing(); }
    } else {
      assert PlainKey(fields[0].key);
      var tail := if |fields| == 1 then "" else " " + PrintFields(fields[1..]);
      if |fields| == 1 {
        NoSeparatorNothing();
      } else {
        ExtensionHasNoSeparator(fields[1..]);
        NoSeparatorOne(' ', PrintFields(fields[1..]));
      }
      var value := Escape(EXTENSION, fields[0].value);
      NoSeparatorEscaped(fields[0].value, tail);
      NoSeparatorOne('=', value + tail);
      NoSeparatorPlain(fields[0].key, "=" + (value + tail));
      PrintsFirst(fields, tail);
    }
  }

  lemma PrintsFirst(fields: seq<Field>, tail: string)
    requires fields != [] && tail == if |fields| == 1 then "" else " " + PrintFields(fields[1..])
    ensures PrintFields(fields) == fields[0].key + ("=" + (Escape(EXTENSION, fields[0].value) + tail))
  {
    hide Escape;
    var key, value := fields[0].key, Escape(EXTENSION, fields[0].value);
    if |fields| == 1 {
      assert PrintFields(fields) == PrintField(fields[0]) == key + "=" + value;
      assert value + tail == value;
    } else {
      JoinsNext(fields);
    }
    hide PrintFields, PrintField;
    Regroups(key, "=", value + tail);
  }

  lemma Regroups(a: string, b: string, c: string)
    ensures a + b + c == a + (b + c)
  {
  }

  lemma NoSeparatorNothing()
    ensures NoSeparator("", false)
  {
  }

  lemma {:induction false} StripRightIsPrefix(l: Library, s: string)
    ensures StripRight(l, s) <= s
  {
    if s != "" && l.space(s[|s| - 1]) {
      StripRightIsPrefix(l, s[..|s| - 1]);
    }
  }

  function TrailingValues(e: Exported): nat {
    Trailing([e.schemaVersion, e.eventType, e.name])
  }

  function Ends(v: string): nat {
    if EndsEscaping(v, false) then 1 else 0
  }

  lemma TrailingCons(v: string, more: seq<string>)
    ensures Trailing([v] + more) == Ends(v) + Trailing(more)
  {
    hide EndsEscaping;
    assert ([v] + more)[1..] == more;
  }

  lemma TrailingThree(a: string, b: string, c: string, more: seq<string>)
    ensures Trailing([a, b, c] + more) == Ends(a) + Ends(b) + Ends(c) + Trailing(more)
  {
    hide Trailing, Ends;
    TrailingCons(c, more);
    TrailingCons(b, [c] + more);
    TrailingCons(a, [b] + ([c] + more));
    assert [a, b, c] + more == [a] + ([b] + ([c] + more));
  }

  lemma TrailingOfHeader(e: Exported)
    ensures Trailing(HeaderValues(e)) == TrailingValues(e)
  {
    hide Clean, EndsEscaping, IntText;
    FixedValuesArePlain();
    NumeralIsPlain(IntText(e.severity));
    CleanDoesNotEscape("0");
    CleanDoesNotEscape("ULPF");
    CleanDoesNotEscape("Prism");
    CleanDoesNotEscape(IntText(e.severity));
    var three, last := [e.schemaVersion, e.eventType, e.name], [IntText(e.severity)];
    assert Trailing([]) == 0;
    TrailingCons(IntText(e.severity), []);
    assert last == [IntText(e.severity)] + [];
    hide Trailing;
    TrailingThree("0", "ULPF", "Prism", three + last);
    TrailingThree(e.schemaVersion, e.eventType, e.name, last);
    TrailingThree(e.schemaVersion, e.eventType, e.name, []);
    assert three + [] == three;
    assert HeaderValues(e) == ["0", "ULPF", "Prism"] + (three + last);
  }

  lemma TrailingIs(e: Exported)
    ensures TrailingValues(e) == Ends(e.schemaVersion) + Ends(e.eventType) + Ends(e.name)
  {
    hide Ends;
    TrailingThree(e.schemaVersion, e.eventType, e.name, []);
    assert [e.schemaVersion, e.eventType, e.name] + [] == [e.schemaVersion, e.eventType, e.name];
  }

  /** A value that ends in a backslash swallows the next separator. The line is then rejected for having fewer
      fields than the format demands. */
  lemma TrailingBackslashRejects(l: Library, e: Exported)
    requires LawfulLibrary(l) && TrailingValues(e) > 0
    ensures Parse(l, CefLine(e)) == TooFewFields(8 - TrailingValues(e))
  {
    hide PrintFields, ExtensionFields, PrintHeader, CefLine, StripRight, Strip, Split, Escape, IntText, HeaderOf, Trailing,
      NoSeparator, HeaderValues;
    var ext := StripRight(l, PrintFields(ExtensionFields(e)));
    StrippedLine(l, e);
    KeysArePlain(e);
    ExtensionHasNoSeparator(ExtensionFields(e));
    StripRightIsPrefix(l, PrintFields(ExtensionFields(e)));
    var cut := PrintFields(ExtensionFields(e))[|ext|..];
    assert PrintFields(ExtensionFields(e)) == ext + cut;
    NoSeparatorPrefix(ext, cut, false);
    TrailingOfHeader(e);
    SevenValues(e);
    HeaderPieces(HeaderValues(e), ext, 7);
    NoSeparatorStaysWhole(ext, false, TrailingValues(e));
    var text := Strip(l, CefLine(e));
    assert text[4..] == PrintHeader(HeaderValues(e), ext) && "CEF:" <= text;
  }

  lemma SevenValues(e: Exported)
    ensures |HeaderValues(e)| == 7
  {
  }

  /** Otherwise the parser returns each value with its backslashes doubled and its line breaks spelled out. */
  lemma HeaderIsReread(l: Library, e: Exported)
    requires LawfulLibrary(l) && TrailingValues(e) == 0
    ensures var r := Parse(l, CefLine(e));
            && r.Parsed?
            && r.cef.header == map[
                 "cef_version" := Reread("0"), "device_vendor" := Reread("ULPF"), "device_product" := Reread("Prism"),
                 "device_version" := Reread(e.schemaVersion), "signature_id" := Reread(e.eventType),
                 "name" := Reread(e.name), "severity" := Reread(IntText(e.severity))]
  {
    hide PrintFields, ExtensionFields, PrintHeader, CefLine, StripRight, Strip, Split, Unescape, Escape, IntText, HeaderOf,
      Trailing, Reread;
    var values, ext := HeaderValues(e), StripRight(l, PrintFields(ExtensionFields(e)));
    StrippedLine(l, e);
    TrailingOfHeader(e);
    HeaderPiecesAre(values, ext);
    forall i | 0 <= i < 7 ensures Unescape(Escape(HEADER, values[i])) == Reread(values[i]) {
      UnescapeRereads(values[i]);
    }
    var text := Strip(l, CefLine(e));
    assert text[4..] == PrintHeader(values, ext) && "CEF:" <= text;
    SevenFields(Split(PrintHeader(values, ext), false, 7));
  }

  /** A Windows path as event name comes back with its backslash doubled. */
  lemma PathIsDoubled(l: Library, e: Exported)
    requires LawfulLibrary(l) && e.schemaVersion == "1.0.0" && e.eventType == "file" && e.name == "C:\\a"
    ensures var r := Parse(l, CefLine(e));
            r.Parsed? && "name" in r.cef.header && r.cef.header["name"] == "C:\\\\a"
  {
    hide Parse, CefLine, IntText, Trailing;
    TrailingIs(e);
    assert Ends("1.0.0") == 0 && Ends("file") == 0;
    assert TrailingValues(e) == 0;
    hide TrailingValues;
    HeaderIsReread(l, e);
    PathReread();
  }

  lemma PathReread()
    ensures Reread("C:\\a") == "C:\\\\a"
  {
    var s := "C:\\a";
    assert s[1..] == ":\\a" && s[1..][1..] == "\\a" && s[1..][1..][1..] == "a";
    assert Reread("a") == "a" by { assert "a"[1..] == ""; }
    assert Reread("\\a") == "\\\\a";
    assert Reread(":\\a") == ":\\\\a";
  }

  /** A directory as event name makes the parser reject the line. */
  lemma DirectoryIsRejected(l: Library, e: Exported)
    requires LawfulLibrary(l) && e.schemaVersion == "1.0.0" && e.eventType == "file" && e.name == "C:\\"
    ensures Parse(l, CefLine(e)) == TooFewFields(7)
  {
    hide Parse, CefLine, Trailing;
    TrailingIs(e);
    assert Ends("1.0.0") == 0 && Ends("file") == 0;
    assert TrailingValues(e) == 1;
    hide TrailingValues;
    TrailingBackslashRejects(l, e);
  }
}
