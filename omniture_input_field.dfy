/**
 * The description of one input field of the Omniture input step: its name, value
 * type, format, length, precision, locale symbols and trim policy, the trim-policy
 * tables with their lookups, and the `<field>` XML fragment it is written as and
 * read back from.
 */
module Omniture {
  import opened Wrappers
  import opened Text

  /** Java's `int`. No operation here does arithmetic on it, so nothing wraps. */
  newtype int32 = x: int | -0x8000_0000 <= x < 0x8000_0000

  // ---------------------------------------------------------------------------
  // Trim policy tables
  // ---------------------------------------------------------------------------

  const TrimNone: int32 := 0
  const TrimLeft: int32 := 1
  const TrimRight: int32 := 2
  const TrimBoth: int32 := 3

  /** The stable codes written to the `trim_type` tag, indexed by trim type. */
  const TrimCodes: seq<string> := ["none", "left", "right", "both"]

  /**
   * The localised display descriptions of the four trim types, in the order of
   * TrimCodes. Their text comes from the host's message catalog, so every lookup
   * over them takes the table as a parameter.
   */
  type TrimDescriptions = s: seq<string> | |s| == 4 witness ["", "", "", ""]

  /** The value type code the host's type registry uses for strings. */
  const TypeString: int32 := 2

  // ---------------------------------------------------------------------------
  // Lookups from a string to a trim type
  // ---------------------------------------------------------------------------

  /** Entry `i` of `table` equals `s` ignoring case. */
  predicate MatchesAt(table: seq<string>, s: string, i: int) {
    0 <= i < |table| && EqualsIgnoreCase(table[i], s)
  }

  /** `r` is the first index of `table` whose entry equals `s` ignoring case. */
  predicate IsFirstMatch(table: seq<string>, s: string, r: int) {
    MatchesAt(table, s, r) && forall j :: 0 <= j < r ==> !MatchesAt(table, s, j)
  }

  /** The first index at or after `k` whose entry equals `s` ignoring case, or 0. */
  function FirstMatchFrom(table: seq<string>, s: string, k: nat): (r: nat)
    ensures r == 0 || k <= r < |table|
    decreases |table| - k
  {
    if k >= |table| then 0
    else if EqualsIgnoreCase(table[k], s) then k
    else FirstMatchFrom(table, s, k + 1)
  }

  /**
   * What the linear searches of getTrimTypeByCode and getTrimTypeByDesc compute:
   * 0 for null, otherwise the first index whose entry equals the input ignoring
   * case, or 0 when none does.
   */
  function IndexIgnoringCase(table: seq<string>, tt: Option<string>): (r: nat)
    ensures r == 0 || r < |table|
  {
    match tt
    case None => 0
    case Some(s) => FirstMatchFrom(table, s, 0)
  }

  lemma {:induction false} FirstMatchFromIsFirst(table: seq<string>, s: string, k: nat)
    requires k <= |table|
    requires forall j :: 0 <= j < k ==> !MatchesAt(table, s, j)
    ensures (exists i :: MatchesAt(table, s, i)) ==> IsFirstMatch(table, s, FirstMatchFrom(table, s, k))
    ensures (forall i :: !MatchesAt(table, s, i)) ==> FirstMatchFrom(table, s, k) == 0
    decreases |table| - k
  {
    if k < |table| && !EqualsIgnoreCase(table[k], s) {
      FirstMatchFromIsFirst(table, s, k + 1);
    }
  }

  /**
   * The lookup returns 0 for null and for an input that matches no entry, and
   * otherwise the smallest matching index: the first match wins even when entries
   * repeat.
   */
  lemma LookupIsFirstMatch(table: seq<string>, tt: Option<string>)
    ensures tt.None? ==> IndexIgnoringCase(table, tt) == 0
    ensures tt.Some? && (exists i :: MatchesAt(table, tt.value, i)) ==>
              IsFirstMatch(table, tt.value, IndexIgnoringCase(table, tt))
    ensures tt.Some? && (forall i :: !MatchesAt(table, tt.value, i)) ==>
              IndexIgnoringCase(table, tt) == 0
  {
    if tt.Some? {
      FirstMatchFromIsFirst(table, tt.value, 0);
    }
  }

  /** getTrimTypeByCode: the trim type whose code equals `tt` ignoring case, NONE otherwise. */
  method TrimTypeByCode(tt: Option<string>) returns (r: int32)
    ensures r as int == IndexIgnoringCase(TrimCodes, tt)
    ensures TrimNone <= r <= TrimBoth
  {
    if tt.None? {
      return 0;
    }
    for i := 0 to |TrimCodes|
      invariant FirstMatchFrom(TrimCodes, tt.value, i) == FirstMatchFrom(TrimCodes, tt.value, 0)
    {
      if EqualsIgnoreCase(TrimCodes[i], tt.value) {
        return i as int32;
      }
    }
    return 0;
  }

  /** getTrimTypeByDesc: the trim type whose description equals `tt` ignoring case, NONE otherwise. */
  method TrimTypeByDesc(descs: TrimDescriptions, tt: Option<string>) returns (r: int32)
    ensures r as int == IndexIgnoringCase(descs, tt)
    ensures TrimNone <= r <= TrimBoth
  {
    if tt.None? {
      return 0;
    }
    for i := 0 to |descs|
      invariant FirstMatchFrom(descs, tt.value, i) == FirstMatchFrom(descs, tt.value, 0)
    {
      if EqualsIgnoreCase(descs[i], tt.value) {
        return i as int32;
      }
    }
    return 0;
  }

  // ---------------------------------------------------------------------------
  // Lookups from a trim type to a string
  // ---------------------------------------------------------------------------

  /** The trim type an index stands for: itself when it is one of the four, NONE otherwise. */
  function ClampTrimType(i: int32): (t: int32)
    ensures TrimNone <= t <= TrimBoth
    ensures TrimNone <= i <= TrimBoth ==> t == i
    ensures !(TrimNone <= i <= TrimBoth) ==> t == TrimNone
  {
    if i < 0 || i >= |TrimCodes| as int32 then TrimNone else i
  }

  /** getTrimTypeCode(int): the code of trim type `i`, the NONE code when `i` is out of range. */
  function TrimTypeCode(i: int32): (r: string)
    ensures r in TrimCodes
    ensures 0 <= i < 4 ==> r == TrimCodes[i]
    ensures !(0 <= i < 4) ==> r == "none"
  {
    if i < 0 || i >= |TrimCodes| as int32 then TrimCodes[0] else TrimCodes[i]
  }

  /** getTrimTypeDesc(int): the description of trim type `i`, the NONE description when `i` is out of range. */
  function TrimTypeDesc(descs: TrimDescriptions, i: int32): (r: string)
    ensures r in descs
    ensures 0 <= i < 4 ==> r == descs[i]
    ensures !(0 <= i < 4) ==> r == descs[TrimNone]
  {
    if i < 0 || i >= |descs| as int32 then descs[0] else descs[i]
  }

  // ---------------------------------------------------------------------------
  // Properties of the trim lookups
  // ---------------------------------------------------------------------------

  /** No two trim codes are equal ignoring case. */
  lemma TrimCodesDistinct(i: int, j: int)
    requires 0 <= i < 4 && 0 <= j < 4 && i != j
    ensures !EqualsIgnoreCase(TrimCodes[i], TrimCodes[j])
  {
    assert IsFolded(TrimCodes[i]) && IsFolded(TrimCodes[j]);
    FoldedEqualsIgnoreCase(TrimCodes[i], TrimCodes[j]);
  }

  /** Any case variant of the code of trim type `i` is looked up as `i`. */
  lemma TrimTypeByCodeIgnoresCase(s: string, i: int)
    requires 0 <= i < 4 && EqualsIgnoreCase(TrimCodes[i], s)
    ensures IndexIgnoringCase(TrimCodes, Some(s)) == i
  {
    LookupIsFirstMatch(TrimCodes, Some(s));
    var r := IndexIgnoringCase(TrimCodes, Some(s));
    if r != i {
      // Both entries equal `s` ignoring case, so they would equal each other.
      EqualsIgnoreCaseSymmetric(TrimCodes[i], s);
      EqualsIgnoreCaseTransitive(TrimCodes[r], s, TrimCodes[i]);
      TrimCodesDistinct(r, i);
      assert false;
    }
  }

  /**
   * Case variants beyond ASCII: "r\u0131ght" (dotless i) and "R\u0130GHT"
   * (capital I with dot) are both looked up as RIGHT, as equalsIgnoreCase takes
   * them.
   */
  lemma TrimTypeByCodeDottedAndDotlessI()
    ensures IndexIgnoringCase(TrimCodes, Some("r\U{0131}ght")) == TrimRight as int
    ensures IndexIgnoringCase(TrimCodes, Some("R\U{0130}GHT")) == TrimRight as int
  {
    assert EqualsIgnoreCase(TrimCodes[2], "r\U{0131}ght");
    TrimTypeByCodeIgnoresCase("r\U{0131}ght", 2);
    assert EqualsIgnoreCase(TrimCodes[2], "R\U{0130}GHT");
    TrimTypeByCodeIgnoresCase("R\U{0130}GHT", 2);
  }

  /**
   * Writing a trim type as its code and reading the code back gives the trim type
   * when it is one of the four, and NONE when it is out of range.
   */
  lemma TrimCodeRoundTrip(i: int32)
    ensures IndexIgnoringCase(TrimCodes, Some(TrimTypeCode(i))) == ClampTrimType(i) as int
  {
    var t := ClampTrimType(i);
    assert TrimTypeCode(i) == TrimCodes[t];
    EqualsIgnoreCaseReflexive(TrimCodes[t]);
    TrimTypeByCodeIgnoresCase(TrimCodes[t], t as int);
  }

  /** Looking a code up, writing the result as a code and looking that up again changes nothing. */
  lemma TrimCodeLookupStable(tt: Option<string>)
    ensures var t := IndexIgnoringCase(TrimCodes, tt);
            t < 4 && IndexIgnoringCase(TrimCodes, Some(TrimTypeCode(t as int32))) == t
  {
    var t := IndexIgnoringCase(TrimCodes, tt);
    TrimCodeRoundTrip(t as int32);
  }

  /**
   * Writing a trim type as its description and reading it back gives the first
   * trim type with that description ignoring case: the trim type itself (clamped)
   * when the four descriptions are distinct ignoring case.
   */
  lemma TrimDescRoundTrip(descs: TrimDescriptions, i: int32)
    ensures var r := IndexIgnoringCase(descs, Some(TrimTypeDesc(descs, i)));
            r <= ClampTrimType(i) as int && EqualsIgnoreCase(descs[r], descs[ClampTrimType(i)])
    ensures (forall j, k :: 0 <= j < k < 4 ==> !EqualsIgnoreCase(descs[j], descs[k])) ==>
            IndexIgnoringCase(descs, Some(TrimTypeDesc(descs, i))) == ClampTrimType(i) as int
  {
    var t := ClampTrimType(i);
    var d := TrimTypeDesc(descs, i);
    assert d == descs[t];
    EqualsIgnoreCaseReflexive(d);
    assert MatchesAt(descs, d, t as int);
    LookupIsFirstMatch(descs, Some(d));
    var r := IndexIgnoringCase(descs, Some(d));
    assert MatchesAt(descs, d, r);
  }

  // ---------------------------------------------------------------------------
  // Collaborators owned by the host engine
  // ---------------------------------------------------------------------------

  /**
   * What the descriptor uses of the host: the value type registry, the integer
   * parser behind Const.toInt, and the XML tag writer with its line terminator.
   */
  datatype Host = Host(
    // ValueMeta.getType: the type code for a description; None when the registry fails
    typeOf: Option<string> -> Option<int32>,
    // ValueMeta.getTypeDesc: the description of a type code
    typeDesc: int32 -> string,
    // the parse inside Const.toInt; None when the text is not an integer
    parseInt: string -> Option<int32>,
    // the text XMLHandler.addTagValue writes for an int
    intText: int32 -> string,
    // XMLHandler.addTagValue(tag, value): one rendered `<tag>value</tag>` line
    addTagValue: (string, Option<string>) -> string,
    // Const.CR
    cr: string)

  /** Const.toInt(text, default): the parsed integer, or `default` when absent or unparsable. */
  function ToInt(host: Host, text: Option<string>, default: int32): int32 {
    match text
    case None => default
    case Some(s) => host.parseInt(s).GetOr(default)
  }

  // ---------------------------------------------------------------------------
  // The descriptor as a value, and its XML form
  // ---------------------------------------------------------------------------

  /** The nine attributes of a field descriptor; a string attribute may be null. */
  datatype Descriptor = Descriptor(
    name: Option<string>,
    valueType: int32,
    format: Option<string>,
    length: int32,
    precision: int32,
    currencySymbol: Option<string>,
    decimalSymbol: Option<string>,
    groupSymbol: Option<string>,
    trimType: int32)

  /** The attributes a new descriptor called `fieldname` starts with. */
  function Defaults(fieldname: Option<string>): Descriptor {
    Descriptor(fieldname, TypeString, Some(""), -1, -1, Some(""), Some(""), Some(""), TrimNone)
  }

  /** One child element of `<field>`: its tag and its text (null for none). */
  datatype Tag = Tag(name: string, value: Option<string>)

  /** The tags of the `<field>` element, in the order they are written. */
  const FieldTags: seq<string> :=
    ["name", "type", "format", "length", "precision", "currency", "decimal", "group", "trim_type"]

  /** The child elements written for descriptor `d`, in order. */
  function Tags(d: Descriptor, host: Host): (ts: seq<Tag>)
    ensures |ts| == |FieldTags|
    ensures forall i :: 0 <= i < |ts| ==> ts[i].name == FieldTags[i]
    ensures ts[8].value.Some? && ts[8].value.value in TrimCodes
  {
    [ Tag("name", d.name),
      Tag("type", Some(host.typeDesc(d.valueType))),
      Tag("format", d.format),
      Tag("length", Some(host.intText(d.length))),
      Tag("precision", Some(host.intText(d.precision))),
      Tag("currency", d.currencySymbol),
      Tag("decimal", d.decimalSymbol),
      Tag("group", d.groupSymbol),
      Tag("trim_type", Some(TrimTypeCode(d.trimType))) ]
  }

  /**
   * A new descriptor is written with the registry's description of the string
   * type, the -1 text for length and precision, and the trim code "none".
   */
  lemma DefaultsTags(fieldname: Option<string>, host: Host)
    ensures var ts := Tags(Defaults(fieldname), host);
            && ts[0].value == fieldname
            && ts[1].value == Some(host.typeDesc(TypeString))
            && ts[3].value == Some(host.intText(-1)) && ts[4].value == Some(host.intText(-1))
            && ts[8].value == Some("none")
  {
  }

  /** Indentation of a tag line inside `<field>`. */
  const Indent: string := "        "

  /** One indented tag line. */
  function TagLine(host: Host, tag: string, value: Option<string>): string {
    Indent + host.addTagValue(tag, value)
  }

  /** The `<field>` line that opens the fragment. */
  function FieldOpen(host: Host): string {
    "      <field>" + host.cr
  }

  /** The `</field>` line that closes the fragment. */
  function FieldClose(host: Host): string {
    Indent + "</field>" + host.cr
  }

  /**
   * The whole `<field>` fragment for descriptor `d`: the opening line, one line
   * for each tag of Tags in its order, and the closing line, appended left to
   * right the way getXML appends them.
   */
  function FieldXml(d: Descriptor, host: Host): string {
    var ts := Tags(d, host);
    "" + FieldOpen(host)
    + TagLine(host, ts[0].name, ts[0].value)
    + TagLine(host, ts[1].name, ts[1].value)
    + TagLine(host, ts[2].name, ts[2].value)
    + TagLine(host, ts[3].name, ts[3].value)
    + TagLine(host, ts[4].name, ts[4].value)
    + TagLine(host, ts[5].name, ts[5].value)
    + TagLine(host, ts[6].name, ts[6].value)
    + TagLine(host, ts[7].name, ts[7].value)
    + TagLine(host, ts[8].name, ts[8].value)
    + FieldClose(host)
  }

  /** A parsed XML element: the text of each child tag it has. */
  type Node = map<string, string>

  /** XMLHandler.getTagValue: the text of child `tag`, null when there is none. */
  function TagValue(node: Node, tag: string): Option<string> {
    if tag in node then Some(node[tag]) else None
  }

  /**
   * The element the host reads back from written tags, taking the XML layer to
   * return for each tag the text that was written for it; the first tag of a name
   * wins.
   */
  function NodeOf(ts: seq<Tag>): Node
    decreases |ts|
  {
    if ts == [] then map[]
    else
      var rest := NodeOf(ts[1..]);
      match ts[0].value
      case Some(v) => rest[ts[0].name := v]
      case None => rest - {ts[0].name}
  }

  /** A tag whose name no earlier tag has is read back with the text written for it. */
  lemma {:induction false} NodeOfReadsBack(ts: seq<Tag>, i: nat)
    requires i < |ts|
    requires forall j :: 0 <= j < i ==> ts[j].name != ts[i].name
    ensures TagValue(NodeOf(ts), ts[i].name) == ts[i].value
    decreases i
  {
    if i > 0 {
      NodeOfReadsBack(ts[1..], i - 1);
    }
  }

  /** Why a descriptor cannot be read: the type registry did not resolve the type description. */
  datatype ConfigError = UnknownType(description: Option<string>)

  /**
   * The descriptor the node constructor builds from `node`, or the error it
   * throws. Absent length and precision read as -1 and an absent or unknown trim
   * code as NONE; the trim type read is always one of the four.
   */
  function Parse(node: Node, host: Host): (r: Result<Descriptor, ConfigError>)
    ensures r.Failure? <==> host.typeOf(TagValue(node, "type")).None?
    ensures r.Success? ==> TrimNone <= r.value.trimType <= TrimBoth
    ensures r.Success? && "length" !in node ==> r.value.length == -1
    ensures r.Success? && "precision" !in node ==> r.value.precision == -1
    ensures r.Success? && "trim_type" !in node ==> r.value.trimType == TrimNone
  {
    var typeDesc := TagValue(node, "type");
    match host.typeOf(typeDesc)
    case None => Failure(UnknownType(typeDesc))
    case Some(t) =>
      Success(Descriptor(
        TagValue(node, "name"),
        t,
        TagValue(node, "format"),
        ToInt(host, TagValue(node, "length"), -1),
        ToInt(host, TagValue(node, "precision"), -1),
        TagValue(node, "currency"),
        TagValue(node, "decimal"),
        TagValue(node, "group"),
        IndexIgnoringCase(TrimCodes, TagValue(node, "trim_type")) as int32))
  }

  /** The host round-trips the descriptor's type through its registry and its integers through text. */
  predicate HostRoundTrips(d: Descriptor, host: Host) {
    && host.typeOf(Some(host.typeDesc(d.valueType))) == Some(d.valueType)
    && host.parseInt(host.intText(d.length)) == Some(d.length)
    && host.parseInt(host.intText(d.precision)) == Some(d.precision)
  }

  /** No two tags of `<field>` share a name. */
  lemma FieldTagsDistinct()
    ensures forall a, b :: 0 <= a < b < |FieldTags| ==> FieldTags[a] != FieldTags[b]
  {
    forall a, b | 0 <= a < b < |FieldTags| ensures FieldTags[a] != FieldTags[b] {
      assert FieldTags[a][0] != FieldTags[b][0] || FieldTags[a][1] != FieldTags[b][1];
    }
  }

  /** Each tag written for `d` is read back with the text written for it. */
  lemma TagsReadBack(d: Descriptor, host: Host, i: nat)
    requires i < |FieldTags|
    ensures TagValue(NodeOf(Tags(d, host)), FieldTags[i]) == Tags(d, host)[i].value
  {
    FieldTagsDistinct();
    NodeOfReadsBack(Tags(d, host), i);
  }

  /**
   * Reading back the tags written for `d` gives `d` again, except that a trim type
   * outside the four is read back as NONE.
   */
  lemma XmlRoundTrip(d: Descriptor, host: Host)
    requires HostRoundTrips(d, host)
    ensures Parse(NodeOf(Tags(d, host)), host) == Success(d.(trimType := ClampTrimType(d.trimType)))
  {
    var node := NodeOf(Tags(d, host));
    TagsReadBack(d, host, 0);
    TagsReadBack(d, host, 1);
    TagsReadBack(d, host, 2);
    TagsReadBack(d, host, 3);
    TagsReadBack(d, host, 4);
    TagsReadBack(d, host, 5);
    TagsReadBack(d, host, 6);
    TagsReadBack(d, host, 7);
    TagsReadBack(d, host, 8);
    TrimCodeRoundTrip(d.trimType);
  }

  // ---------------------------------------------------------------------------
  // The mutable descriptor object
  // ---------------------------------------------------------------------------

  class OmnitureInputField {
    var name: Option<string>
    var valueType: int32
    var format: Option<string>
    var length: int32
    var precision: int32
    var currencySymbol: Option<string>
    var decimalSymbol: Option<string>
    var groupSymbol: Option<string>
    var trimType: int32

    /** The nine attributes of this object as a value. */
    function State(): Descriptor
      reads this
    {
      Descriptor(name, valueType, format, length, precision,
                 currencySymbol, decimalSymbol, groupSymbol, trimType)
    }

    /** A descriptor called `fieldname`: a string with no format, length or precision, no symbols and no trimming. */
    constructor (fieldname: Option<string>)
      ensures State() == Defaults(fieldname)
    {
      name := fieldname;
      valueType := TypeString;
      format := Some("");
      length := -1;
      precision := -1;
      currencySymbol := Some("");
      decimalSymbol := Some("");
      groupSymbol := Some("");
      trimType := TrimNone;
    }

    /** The no-argument constructor: the same as a descriptor called "". */
    constructor Empty()
      ensures State() == Defaults(Some(""))
    {
      name := Some("");
      valueType := TypeString;
      format := Some("");
      length := -1;
      precision := -1;
      currencySymbol := Some("");
      decimalSymbol := Some("");
      groupSymbol := Some("");
      trimType := TrimNone;
    }

    /**
     * The node constructor: reads every attribute from the child tags of `node`
     * through the setters, and throws when the type registry cannot resolve the
     * type description.
     */
    static method FromNode(node: Node, host: Host) returns (r: Result<OmnitureInputField, ConfigError>)
      ensures r.Failure? <==> Parse(node, host).Failure?
      ensures r.Failure? ==> r.error == Parse(node, host).error
      ensures r.Success? ==> fresh(r.value) && r.value.State() == Parse(node, host).value
    {
      var f := new OmnitureInputField.Empty();
      f.SetName(TagValue(node, "name"));
      var typeDesc := TagValue(node, "type");
      var t := host.typeOf(typeDesc);
      if t.None? {
        return Failure(UnknownType(typeDesc));
      }
      f.SetType(t.value);
      f.SetFormat(TagValue(node, "format"));
      f.SetLength(ToInt(host, TagValue(node, "length"), -1));
      f.SetPrecision(ToInt(host, TagValue(node, "precision"), -1));
      f.SetCurrencySymbol(TagValue(node, "currency"));
      f.SetDecimalSymbol(TagValue(node, "decimal"));
      f.SetGroupSymbol(TagValue(node, "group"));
      var trim := TrimTypeByCode(TagValue(node, "trim_type"));
      f.SetTrimType(trim);
      return Success(f);
    }

    /** getXML: the `<field>` fragment, built line by line in the fixed tag order. */
    method GetXml(host: Host) returns (xml: string)
      ensures xml == FieldXml(State(), host)
    {
      xml := "";
      xml := xml + FieldOpen(host);
      xml := xml + TagLine(host, "name", GetName());
      xml := xml + TagLine(host, "type", Some(GetTypeDesc(host)));
      xml := xml + TagLine(host, "format", GetFormat());
      xml := xml + TagLine(host, "length", Some(host.intText(GetLength())));
      xml := xml + TagLine(host, "precision", Some(host.intText(GetPrecision())));
      xml := xml + TagLine(host, "currency", GetCurrencySymbol());
      xml := xml + TagLine(host, "decimal", GetDecimalSymbol());
      xml := xml + TagLine(host, "group", GetGroupSymbol());
      xml := xml + TagLine(host, "trim_type", Some(GetTrimTypeCode()));
      xml := xml + FieldClose(host);
    }

    /** clone: a new object with the same nine attributes. */
    method Clone() returns (c: OmnitureInputField)
      ensures fresh(c) && c.State() == State()
    {
      c := new OmnitureInputField(name);
      c.valueType, c.format, c.length, c.precision := valueType, format, length, precision;
      c.currencySymbol, c.decimalSymbol, c.groupSymbol := currencySymbol, decimalSymbol, groupSymbol;
      c.trimType := trimType;
    }

    // The getters read one attribute of the descriptor each, the trim type
    // included as stored, unclamped.

    function GetName(): (r: Option<string>)
      reads this
      ensures r == State().name
    {
      name
    }

    function GetType(): (r: int32)
      reads this
      ensures r == State().valueType
    {
      valueType
    }

    function GetFormat(): (r: Option<string>)
      reads this
      ensures r == State().format
    {
      format
    }

    function GetLength(): (r: int32)
      reads this
      ensures r == State().length
    {
      length
    }

    function GetPrecision(): (r: int32)
      reads this
      ensures r == State().precision
    {
      precision
    }

    function GetCurrencySymbol(): (r: Option<string>)
      reads this
      ensures r == State().currencySymbol
    {
      currencySymbol
    }

    function GetDecimalSymbol(): (r: Option<string>)
      reads this
      ensures r == State().decimalSymbol
    {
      decimalSymbol
    }

    function GetGroupSymbol(): (r: Option<string>)
      reads this
      ensures r == State().groupSymbol
    {
      groupSymbol
    }

    function GetTrimType(): (r: int32)
      reads this
      ensures r == State().trimType
    {
      trimType
    }

    /** getTypeDesc: the registry's description of this field's type code. */
    function GetTypeDesc(host: Host): (r: string)
      reads this
      ensures r == host.typeDesc(State().valueType)
    {
      host.typeDesc(valueType)
    }

    /** The instance getTrimTypeCode: always one of the four codes, whatever int was set. */
    function GetTrimTypeCode(): (r: string)
      reads this
      ensures r in TrimCodes
      ensures r == TrimCodes[ClampTrimType(trimType)]
    {
      TrimTypeCode(trimType)
    }

    /** The instance getTrimTypeDesc: always one of the four descriptions, whatever int was set. */
    function GetTrimTypeDesc(descs: TrimDescriptions): (r: string)
      reads this
      ensures r in descs
      ensures r == descs[ClampTrimType(trimType)]
    {
      TrimTypeDesc(descs, trimType)
    }

    method SetName(fieldname: Option<string>)
      modifies this
      ensures GetName() == fieldname && State() == old(State()).(name := fieldname)
    {
      name := fieldname;
    }

    method SetType(t: int32)
      modifies this
      ensures GetType() == t && State() == old(State()).(valueType := t)
    {
      valueType := t;
    }

    method SetFormat(f: Option<string>)
      modifies this
      ensures GetFormat() == f && State() == old(State()).(format := f)
    {
      format := f;
    }

    method SetLength(n: int32)
      modifies this
      ensures GetLength() == n && State() == old(State()).(length := n)
    {
      length := n;
    }

    method SetPrecision(n: int32)
      modifies this
      ensures GetPrecision() == n && State() == old(State()).(precision := n)
    {
      precision := n;
    }

    method SetCurrencySymbol(s: Option<string>)
      modifies this
      ensures GetCurrencySymbol() == s && State() == old(State()).(currencySymbol := s)
    {
      currencySymbol := s;
    }

    method SetDecimalSymbol(s: Option<string>)
      modifies this
      ensures GetDecimalSymbol() == s && State() == old(State()).(decimalSymbol := s)
    {
      decimalSymbol := s;
    }

    method SetGroupSymbol(s: Option<string>)
      modifies this
      ensures GetGroupSymbol() == s && State() == old(State()).(groupSymbol := s)
    {
      groupSymbol := s;
    }

    /** setTrimType stores any int unchecked; GetTrimTypeCode still yields a valid code. */
    method SetTrimType(t: int32)
      modifies this
      ensures GetTrimType() == t && State() == old(State()).(trimType := t)
      ensures GetTrimTypeCode() in TrimCodes
    {
      trimType := t;
    }
  }
}
