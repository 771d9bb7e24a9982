/** The funding-offer cancel commands of the `fundingoffer` package. Each
    request renders in two ways: `ToJSON` gives the compact JSON object that
    `encoding/json` makes of an anonymous struct, and `MarshalJSON` wraps
    that object in the websocket command envelope `[0, "foc", null, <object>]`
    (channel 0, command code "foc", a reserved null, the payload). */
module FundingOffer {
  import opened Common
  import Decimal
  import GoJson
  import JsonText

  /** What the envelope's format string writes before the payload. */
  const EnvelopePrefix := "[0, \"foc\", null, "

  function Envelope(payload: string): (s: string)
    ensures |s| == |EnvelopePrefix| + |payload| + 1
    ensures s[..|EnvelopePrefix|] == EnvelopePrefix && s[|s| - 1] == ']'
    ensures s[|EnvelopePrefix|..|s| - 1] == payload
  {
    EnvelopePrefix + payload + "]"
  }

  /** The inverse of `Envelope`: the payload of a text that has the
      envelope's fixed prefix and closing bracket. */
  function UnwrapEnvelope(s: string): Option<string> {
    var n := |EnvelopePrefix|;
    if |s| > n && s[..n] == EnvelopePrefix && s[|s| - 1] == ']' then Some(s[n..|s| - 1])
    else None
  }

  /** The tail shared by both `MarshalJSON` methods: an error from `ToJSON`
      is returned as is, with no bytes; otherwise the payload is wrapped. */
  function WrapPayload(payload: Result<string>): (r: Result<string>)
    ensures r.Err? <==> payload.Err?
    ensures r.Err? ==> r.error == payload.error
    ensures r.Ok? ==> UnwrapEnvelope(r.value) == Some(payload.value)
  {
    match payload
    case Err(e) => Err(e)
    case Ok(b) => UnwrapEnvelopeIff(Envelope(b), b); Ok(Envelope(b))
  }

  /** Stripping the fixed prefix and the final bracket gives back exactly
      the payload, and only envelopes unwrap. */
  lemma UnwrapEnvelopeIff(s: string, p: string)
    ensures UnwrapEnvelope(s) == Some(p) <==> s == Envelope(p)
  {
  }

  /** The envelope read as a JSON array has exactly four elements: the
      number 0, the string "foc", null and the payload. */
  lemma EnvelopeElements(p: string)
    requires JsonText.IsOneElement(p)
    requires p != [] && !JsonText.IsWhitespace(p[0]) && !JsonText.IsWhitespace(p[|p| - 1])
    ensures JsonText.Elements(Envelope(p)) == Some(["0", "\"foc\"", "null", p])
  {
    var pieces := EnvelopePieces(p);
    EnvelopeIsJoin(p);
    EnvelopePiecesAreElements(p);
    JsonText.ElementsOfJoin(pieces);
    EnvelopePiecesTrimmed(p);
  }

  /** The envelope as the format string lays it out: four texts separated
      by commas, each after the first led by one space. */
  function EnvelopePieces(p: string): seq<string> {
    ["0", " \"foc\"", " null", " " + p]
  }

  lemma EnvelopeIsJoin(p: string)
    ensures Envelope(p) == "[" + JsonText.JoinCommas(EnvelopePieces(p)) + "]"
  {
    var pieces := EnvelopePieces(p);
    assert JsonText.JoinCommas(pieces[3..]) == " " + p;
    assert JsonText.JoinCommas(pieces[2..]) == " null" + "," + (" " + p);
    assert JsonText.JoinCommas(pieces[1..]) == " \"foc\"" + "," + (" null" + "," + (" " + p));
    assert JsonText.JoinCommas(pieces) == "0" + "," + (" \"foc\"" + "," + (" null" + "," + (" " + p)));
  }

  lemma EnvelopePiecesAreElements(p: string)
    requires JsonText.IsOneElement(p)
    ensures forall i :: 0 <= i < 4 ==> JsonText.IsOneElement(EnvelopePieces(p)[i])
  {
  }

  lemma EnvelopePiecesTrimmed(p: string)
    requires p != [] && !JsonText.IsWhitespace(p[0]) && !JsonText.IsWhitespace(p[|p| - 1])
    ensures JsonText.TrimAll(EnvelopePieces(p)) == ["0", "\"foc\"", "null", p]
  {
    var pieces := EnvelopePieces(p);
    TrimSpaceBefore("0", "0");
    TrimSpaceBefore(" \"foc\"", "\"foc\"");
    TrimSpaceBefore(" null", "null");
    TrimSpaceBefore(" " + p, p);
    assert JsonText.TrimAll(pieces[3..]) == [p] by {
      assert pieces[3..][1..] == [];
    }
    assert JsonText.TrimAll(pieces[2..]) == ["null", p] by {
      assert pieces[2..][1..] == pieces[3..];
    }
    assert JsonText.TrimAll(pieces[1..]) == ["\"foc\"", "null", p] by {
      assert pieces[1..][1..] == pieces[2..];
    }
  }

  /** Trimming an optional single space off a text whose ends are not
      whitespace. */
  lemma TrimSpaceBefore(s: string, t: string)
    requires t != [] && !JsonText.IsWhitespace(t[0]) && !JsonText.IsWhitespace(t[|t| - 1])
    requires s == t || s == " " + t
    ensures JsonText.Trim(s) == t
  {
    if s != t {
      assert s[1..] == t;
    }
    assert JsonText.TrimLeft(s) == t;
  }

  /** `CancelRequest` cancels one funding offer by its id. */
  datatype CancelRequest = CancelRequest(id: int64) {

    /** The anonymous struct `{ ID int64 `json:"id"` }`. */
    function Fields(): (fs: seq<GoJson.Field>)
      ensures |fs| == 1 && GoJson.IsExported(fs[0])
      ensures GoJson.Key(fs[0]) == "id" && fs[0].value == GoJson.IntValue(id as int)
    {
      [GoJson.Field("ID", "id", GoJson.IntValue(id as int))]
    }

    /** Always succeeds, with the compact object `{"id":<decimal id>}`. */
    function ToJSON(): (r: Result<string>)
      ensures r == Ok("{\"id\":" + Decimal.FormatInt(id as int) + "}")
    {
      GoJson.MarshalOneExported(Fields()[0]);
      IdObjectText(Decimal.FormatInt(id as int));
      GoJson.Marshal(Fields())
    }

    /** Always succeeds: the `ToJSON` object inside the "foc" envelope. */
    function MarshalJSON(): (r: Result<string>)
      ensures r.Ok? && UnwrapEnvelope(r.value) == Some(ToJSON().value)
    {
      WrapPayload(ToJSON())
    }
  }

  lemma IdObjectText(d: string)
    ensures "{" + ("\"" + "id" + "\":" + d) + "}" == "{\"id\":" + d + "}"
  {
  }

  /** The id read back from a `{"id":<integer>}` payload. */
  function DecodeCancelPayload(p: string): Option<int> {
    var n := |"{\"id\":"|;
    if |p| > n && p[..n] == "{\"id\":" && p[|p| - 1] == '}' then Decimal.ParseInt(p[n..|p| - 1])
    else None
  }

  /** The payload decodes to `x` exactly when it is the rendering of `x`
      (or of the JSON spelling "-0" of 0). */
  lemma DecodeCancelPayloadIff(p: string, x: int)
    ensures DecodeCancelPayload(p) == Some(x) <==>
      p == "{\"id\":" + Decimal.FormatInt(x) + "}" || (x == 0 && p == "{\"id\":-0}")
  {
    var n := |"{\"id\":"|;
    if p == "{\"id\":" + Decimal.FormatInt(x) + "}" {
      assert p[..n] == "{\"id\":" && p[n..|p| - 1] == Decimal.FormatInt(x);
    }
    if x == 0 && p == "{\"id\":-0}" {
      assert p[..n] == "{\"id\":" && p[n..|p| - 1] == "-0";
    }
    if |p| > n && p[..n] == "{\"id\":" && p[|p| - 1] == '}' {
      assert p == "{\"id\":" + p[n..|p| - 1] + "}";
    }
    Decimal.ParseIntIffFormat(if DecodeCancelPayload(p).Some? then p[n..|p| - 1] else Decimal.FormatInt(x), x);
  }

  /** Both renderings of a cancel request give back its id, for every
      int64 including negative ones. */
  lemma CancelRequestRoundTrip(cr: CancelRequest)
    ensures DecodeCancelPayload(cr.ToJSON().value) == Some(cr.id as int)
    ensures cr.MarshalJSON().Ok?
    ensures UnwrapEnvelope(cr.MarshalJSON().value) == Some(cr.ToJSON().value)
  {
    DecodeCancelPayloadIff(cr.ToJSON().value, cr.id as int);
  }

  /** The cancel envelope has the four elements 0, "foc", null and the
      `ToJSON` object. */
  lemma CancelRequestEnvelope(cr: CancelRequest)
    ensures cr.MarshalJSON().Ok?
    ensures JsonText.Elements(cr.MarshalJSON().value) == Some(["0", "\"foc\"", "null", cr.ToJSON().value])
  {
    IdPayloadIsOneElement(cr.id as int);
    EnvelopeElements(cr.ToJSON().value);
  }

  /** The cancel payload is one array element: its only comma-free,
      balanced text sits inside one pair of braces. */
  lemma IdPayloadIsOneElement(x: int)
    ensures JsonText.IsOneElement("{\"id\":" + Decimal.FormatInt(x) + "}")
  {
    var body := "\"id\"" + (":" + Decimal.FormatInt(x));
    IdMemberInside(x);
    JsonText.Braced(body);
    IdMemberText(Decimal.FormatInt(x));
  }

  /** The member `"id":<digits>` leaves the scanner one level deep, where
      it found it, and holds no separator. */
  lemma IdMemberInside(x: int)
    ensures var body := "\"id\"" + (":" + Decimal.FormatInt(x));
      JsonText.LexAfter(JsonText.Inside, body) == JsonText.Inside && JsonText.NoSeparator(JsonText.Inside, body)
  {
    var rest := ":" + Decimal.FormatInt(x);
    ColonNumberIsPlain(x);
    JsonText.QuotedPlain(JsonText.Inside, "id");
    JsonText.PlainText(JsonText.Inside, rest);
    JsonText.LexAfterAppend(JsonText.Inside, "\"id\"", rest);
    JsonText.NoSeparatorAppend(JsonText.Inside, "\"id\"", rest);
  }

  lemma IdMemberText(d: string)
    ensures "{" + ("\"id\"" + (":" + d)) + "}" == "{\"id\":" + d + "}"
  {
  }

  lemma ColonNumberIsPlain(x: int)
    ensures forall i :: 0 <= i < |":" + Decimal.FormatInt(x)| ==> JsonText.IsPlain((":" + Decimal.FormatInt(x))[i])
  {
    Decimal.FormatIntAlphabet(x);
  }

  /** `CancelAllRequest` is meant to cancel every offer in one currency. */
  datatype CancelAllRequest = CancelAllRequest(currency: string) {

    /** The anonymous struct `{ currency string `json:"currency"` }`: its
        only field is unexported. */
    function Fields(): (fs: seq<GoJson.Field>)
      ensures |fs| == 1 && !GoJson.IsExported(fs[0])
      ensures GoJson.Key(fs[0]) == "currency" && fs[0].value == GoJson.StringValue(currency)
    {
      [GoJson.Field("currency", "currency", GoJson.StringValue(currency))]
    }

    function ToJSON(): (r: Result<string>)
      ensures r.Ok?
    {
      GoJson.Marshal(Fields())
    }

    function MarshalJSON(): (r: Result<string>)
      ensures r.Ok? && UnwrapEnvelope(r.value) == Some(ToJSON().value)
    {
      WrapPayload(ToJSON())
    }
  }

  /** As written, the currency never reaches the wire: the payload is the
      empty object whatever the currency. */
  lemma CancelAllPayloadIsEmpty(ca: CancelAllRequest)
    ensures ca.ToJSON() == Ok("{}")
  {
    assert !GoJson.IsExported(ca.Fields()[0]);
    GoJson.MarshalEmptyIff(ca.Fields());
  }

  /** The payload does not depend on the currency at all. */
  lemma CancelAllIgnoresCurrency(ca: CancelAllRequest, other: string)
    ensures CancelAllRequest(other).ToJSON() == ca.ToJSON()
  {
    var fields := ca.Fields();
    assert !GoJson.IsExported(fields[0]);
    GoJson.MarshalIgnoresUnexported(fields, 0, GoJson.StringValue(other));
    assert fields[0 := fields[0].(value := GoJson.StringValue(other))] == CancelAllRequest(other).Fields();
  }

  /** The cancel-all envelope is the fixed text `[0, "foc", null, {}]`, with
      the same command code as the single-offer cancel, and reads as the four
      elements 0, "foc", null, {}. */
  lemma CancelAllEnvelope(ca: CancelAllRequest)
    ensures ca.MarshalJSON() == Ok("[0, \"foc\", null, {}]")
    ensures JsonText.Elements(ca.MarshalJSON().value) == Some(["0", "\"foc\"", "null", "{}"])
  {
    CancelAllPayloadIsEmpty(ca);
    UnwrapEnvelopeIff(ca.MarshalJSON().value, "{}");
    assert Envelope("{}") == "[0, \"foc\", null, {}]";
    JsonText.Braced("");
    assert "{" + "" + "}" == "{}";
    EnvelopeElements("{}");
  }
}
