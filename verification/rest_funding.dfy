/** The decisions `FundingService` makes for each funding endpoint: the
    permission scope the request is signed with, the request path, the body
    (for writes), and the straight-line chain encode, build the
    authenticated request, send it, decode the answer, which returns at the
    first error. The request factory, the transport and the response
    decoders are collaborators whose outcomes are parameters. */
module Funding {
  import opened Common
  import Decimal
  import GoJson

  datatype Permission = PermissionRead | PermissionWrite

  /** `KeepFundingRequest`: `kind` is the Go field `Type`. */
  datatype KeepFundingRequest = KeepFundingRequest(kind: string, id: int64) {

    /** The struct's fields: `Type string `json:"type"``, `ID int `json:"id"``. */
    function Fields(): (fs: seq<GoJson.Field>)
      ensures |fs| == 2 && GoJson.IsExported(fs[0]) && GoJson.IsExported(fs[1])
      ensures GoJson.Key(fs[0]) == "type" && fs[0].value == GoJson.StringValue(kind)
      ensures GoJson.Key(fs[1]) == "id" && fs[1].value == GoJson.IntValue(id as int)
    {
      [GoJson.Field("Type", "type", GoJson.StringValue(kind)), GoJson.Field("ID", "id", GoJson.IntValue(id as int))]
    }
  }

  /** The only types the venue accepts; the comparison is case-sensitive.
      Both are lower-case words, so the type is marshalled unescaped. */
  predicate IsKeepFundingType(t: string): (ok: bool)
    ensures ok ==> |t| > 0 && forall i :: 0 <= i < |t| ==> 'a' <= t[i] <= 'z'
  {
    t == "credit" || t == "loan"
  }

  /** The validation gate of `KeepFunding` followed by `json.Marshal(args)`.
      A rejected type gives the error and no bytes; an accepted one gives
      the compact object with the keys in declaration order. */
  function EncodeKeepFunding(args: KeepFundingRequest): (r: Result<string>)
    ensures r.Err? <==> !IsKeepFundingType(args.kind)
    ensures r.Err? ==> r.error == Error("Expected type: credit or loan, got: " + args.kind)
    ensures r.Ok? ==> r.value == "{\"type\":\"" + args.kind + "\",\"id\":" + Decimal.FormatInt(args.id as int) + "}"
  {
    if !IsKeepFundingType(args.kind) then
      Err(Error("Expected type: credit or loan, got: " + args.kind))
    else
      KeepFundingBody(args);
      GoJson.Marshal(args.Fields())
  }

  /** An accepted request marshals to `{"type":"<type>","id":<id>}`. */
  lemma KeepFundingBody(args: KeepFundingRequest)
    requires IsKeepFundingType(args.kind)
    ensures GoJson.Encodable(args.Fields())
    ensures GoJson.Marshal(args.Fields()).value
         == "{\"type\":\"" + args.kind + "\",\"id\":" + Decimal.FormatInt(args.id as int) + "}"
  {
    var fields := args.Fields();
    KeepFundingEncodable(args);
    GoJson.MarshalTwoExported(fields[0], fields[1]);
    assert fields == [fields[0], fields[1]];
    KeepFundingMembers(args.kind, Decimal.FormatInt(args.id as int));
  }

  lemma KeepFundingMembers(kind: string, id: string)
    ensures var m0 := GoJson.Member(GoJson.Field("Type", "type", GoJson.StringValue(kind)));
            var m1 := "\"id\":" + id;
            "{" + m0 + "," + m1 + "}" == "{\"type\":\"" + kind + "\",\"id\":" + id + "}"
  {
    var m0 := GoJson.Member(GoJson.Field("Type", "type", GoJson.StringValue(kind)));
    assert m0 == "\"type\":\"" + kind + "\"";
  }

  lemma KeepFundingEncodable(args: KeepFundingRequest)
    requires IsKeepFundingType(args.kind)
    ensures GoJson.Encodable(args.Fields())
  {
    GoJson.LowerCaseNeedsNoEscape(args.kind);
    GoJson.LowerCaseNeedsNoEscape("type");
    GoJson.LowerCaseNeedsNoEscape("id");
  }

  /** One call of a `FundingService` method with its argument. The write
      calls other than `KeepFunding` carry the outcome of their request's
      own `ToJSON`, which belongs to another package. */
  datatype Call =
    | Offers(symbol: string)
    | OfferHistory(symbol: string)
    | Loans(symbol: string)
    | LoansHistory(symbol: string)
    | Credits(symbol: string)
    | CreditsHistory(symbol: string)
    | Trades(symbol: string)
    | SubmitOffer(offerJson: Result<string>)
    | CancelOffer(cancelJson: Result<string>)
    | KeepFunding(args: KeepFundingRequest)

  /** The calls that only query: they take a symbol and send no body. */
  predicate IsQuery(c: Call) {
    c.Offers? || c.OfferHistory? || c.Loans? || c.LoansHistory? ||
    c.Credits? || c.CreditsHistory? || c.Trades?
  }

  /** A symbol that `path.Join` keeps as it is, as one path segment: no
      '/' and not a dot segment. The empty symbol is allowed (it is
      dropped). */
  predicate IsSegment(s: string) {
    '/' !in s && s != "." && s != ".."
  }

  predicate WellFormed(c: Call) {
    IsQuery(c) ==> IsSegment(c.symbol)
  }

  /** The scope each method passes to the request factory. */
  function PermissionOf(c: Call): (p: Permission)
    ensures p == PermissionRead <==> IsQuery(c)
  {
    match c
    case Offers(_) => PermissionRead
    case OfferHistory(_) => PermissionRead
    case Loans(_) => PermissionRead
    case LoansHistory(_) => PermissionRead
    case Credits(_) => PermissionRead
    case CreditsHistory(_) => PermissionRead
    case Trades(_) => PermissionRead
    case SubmitOffer(_) => PermissionWrite
    case CancelOffer(_) => PermissionWrite
    case KeepFunding(_) => PermissionWrite
  }

  /** The elements that are not empty. (Their order is fixed by the body;
      `JoinTwo` and `JoinThree` state the joined paths exactly.) */
  function NonEmpty(elems: seq<string>): (r: seq<string>)
    ensures forall i :: 0 <= i < |r| ==> r[i] != ""
    ensures r == [] <==> forall i :: 0 <= i < |elems| ==> elems[i] == ""
    ensures forall x :: x in r <==> x in elems && x != ""
    ensures |r| <= |elems|
    decreases |elems|
  {
    if elems == [] then []
    else
      assert forall i :: 1 <= i < |elems| ==> elems[i] == elems[1..][i - 1];
      if elems[0] == "" then NonEmpty(elems[1..])
      else [elems[0]] + NonEmpty(elems[1..])
  }

  function JoinSlash(parts: seq<string>): (r: string)
    ensures parts != [] ==> |r| >= |parts[0]|
    decreases |parts|
  {
    if parts == [] then ""
    else if |parts| == 1 then parts[0]
    else parts[0] + "/" + JoinSlash(parts[1..])
  }

  /** `path.Join` on elements that are empty or clean relative paths: the
      empty ones are dropped and the rest joined with '/'. */
  function JoinPath(elems: seq<string>): (r: string)
    ensures r == "" <==> forall i :: 0 <= i < |elems| ==> elems[i] == ""
  {
    JoinSlash(NonEmpty(elems))
  }

  /** The path each method asks the request factory for. */
  function PathOf(c: Call): (p: string)
    requires WellFormed(c)
    ensures p != ""
  {
    match c
    case Offers(s) => JoinPath(["funding/offers", s])
    case OfferHistory(s) => JoinPath(["funding/offers", s, "hist"])
    case Loans(s) => JoinPath(["funding/loans", s])
    case LoansHistory(s) => JoinPath(["funding/loans", s, "hist"])
    case Credits(s) => JoinPath(["funding/credits", s])
    case CreditsHistory(s) => JoinPath(["funding/credits", s, "hist"])
    case Trades(s) => JoinPath(["funding/trades", s, "hist"])
    case SubmitOffer(_) => JoinPath(["funding/offer/submit"])
    case CancelOffer(_) => "funding/offer/cancel"
    case KeepFunding(_) => JoinPath(["funding", "keep"])
  }

  /** The encode step before any request is built: queries have no body
      (they use `NewAuthenticatedRequest`), writes have the bytes of their
      request or the error that producing them gave. */
  function Encode(c: Call): (r: Result<Option<string>>)
    ensures r.Ok? ==> (r.value.None? <==> IsQuery(c))
    ensures IsQuery(c) ==> r == Ok(None)
    ensures c.SubmitOffer? ==>
      r == if c.offerJson.Err? then Err(c.offerJson.error) else Ok(Some(c.offerJson.value))
    ensures c.CancelOffer? ==>
      r == if c.cancelJson.Err? then Err(c.cancelJson.error) else Ok(Some(c.cancelJson.value))
    ensures c.KeepFunding? ==> (r.Err? <==> !IsKeepFundingType(c.args.kind))
    ensures c.KeepFunding? && r.Err? ==> r.error == EncodeKeepFunding(c.args).error
    ensures c.KeepFunding? && r.Ok? ==> r.value == Some(EncodeKeepFunding(c.args).value)
  {
    match c
    case SubmitOffer(b) => if b.Err? then Err(b.error) else Ok(Some(b.value))
    case CancelOffer(b) => if b.Err? then Err(b.error) else Ok(Some(b.value))
    case KeepFunding(args) =>
      var b := EncodeKeepFunding(args);
      if b.Err? then Err(b.error) else Ok(Some(b.value))
    case _ => Ok(None)
  }

  /** A call made to a collaborator: building the signed request (with the
      scope, the path and the body, if any), sending it, decoding the answer. */
  datatype Step =
    | BuildRequest(permission: Permission, path: string, body: Option<string>)
    | Send
    | DecodeResponse

  /** The outcomes the collaborators give: the request factory, the
      transport (`fs.Request`) and the decoder of the method's result type. */
  datatype Collaborators<!Req, !Raw, T> = Collaborators(
    newRequest: (Permission, string, Option<string>) -> Result<Req>,
    send: Req -> Result<Raw>,
    decode: Raw -> Result<T>)

  /** What a method returns, and the collaborator calls it made, in order. */
  datatype Run<T> = Run(result: Result<T>, trace: seq<Step>)

  /** The steps a call makes when none of them fails. */
  function Plan(c: Call): (steps: seq<Step>)
    requires WellFormed(c) && Encode(c).Ok?
    ensures |steps| == 3 && steps[0].BuildRequest?
  {
    [BuildRequest(PermissionOf(c), PathOf(c), Encode(c).value), Send, DecodeResponse]
  }

  /** A `FundingService` method: each step runs only when the one before
      succeeded, and the first error is returned with no result. */
  function Execute<Req, Raw, T>(c: Call, env: Collaborators<Req, Raw, T>): (run: Run<T>)
    requires WellFormed(c)
    ensures Encode(c).Err? ==> run == Run(Err(Encode(c).error), [])
    ensures Encode(c).Ok? ==> 1 <= |run.trace| && run.trace <= Plan(c)
    ensures run.result.Ok? ==> Encode(c).Ok? && run.trace == Plan(c)
  {
    match Encode(c)
    case Err(e) => Run(Err(e), [])
    case Ok(body) =>
      var build := BuildRequest(PermissionOf(c), PathOf(c), body);
      match env.newRequest(PermissionOf(c), PathOf(c), body)
      case Err(e) => Run(Err(e), [build])
      case Ok(req) =>
        match env.send(req)
        case Err(e) => Run(Err(e), [build, Send])
        case Ok(raw) => Run(env.decode(raw), [build, Send, DecodeResponse])
  }

  /** The error a run ends with is the error of the last step it made, and
      no step follows a failed one. */
  lemma ErrorComesFromLastStep<Req, Raw, T>(c: Call, env: Collaborators<Req, Raw, T>)
    requires WellFormed(c)
    ensures var run := Execute(c, env);
      && (|run.trace| == 0 <==> Encode(c).Err?)
      && (|run.trace| >= 1 ==>
            var b := run.trace[0];
            var built := env.newRequest(b.permission, b.path, b.body);
            && (|run.trace| == 1 <==> built.Err?)
            && (|run.trace| == 1 ==> run.result == Err(built.error))
            && (|run.trace| >= 2 ==>
                  var sent := env.send(built.value);
                  && (|run.trace| == 2 <==> sent.Err?)
                  && (|run.trace| == 2 ==> run.result == Err(sent.error))
                  && (|run.trace| == 3 ==> run.result == env.decode(sent.value))))
  {
  }

  /** Every write call sends a body and every query sends none: the scope
      and the factory variant always agree. */
  lemma WriteScopeIffBody(c: Call)
    requires Encode(c).Ok?
    ensures PermissionOf(c) == PermissionWrite <==> Encode(c).value.Some?
  {
  }

  /** A `KeepFunding` call with a type other than "credit" or "loan" fails
      before any request is built or anything is sent. */
  lemma KeepFundingRejected<Req, Raw, T>(args: KeepFundingRequest, env: Collaborators<Req, Raw, T>)
    requires !IsKeepFundingType(args.kind)
    ensures Execute(KeepFunding(args), env) == Run(Err(Error("Expected type: credit or loan, got: " + args.kind)), [])
  {
  }

  /** An accepted `KeepFunding` call first asks for a write-scoped request
      to `funding/keep` carrying the encoded body. */
  lemma KeepFundingRequestBuilt<Req, Raw, T>(args: KeepFundingRequest, env: Collaborators<Req, Raw, T>)
    requires IsKeepFundingType(args.kind)
    ensures Execute(KeepFunding(args), env).trace[0] ==
      BuildRequest(PermissionWrite, "funding/keep",
                   Some("{\"type\":\"" + args.kind + "\",\"id\":" + Decimal.FormatInt(args.id as int) + "}"))
  {
  }

  /** A `ToJSON` failure of the offer to submit is returned as is, before
      any request is built or anything is sent. */
  lemma SubmitOfferRejected<Req, Raw, T>(e: Error, env: Collaborators<Req, Raw, T>)
    ensures Execute(SubmitOffer(Err(e)), env) == Run(Err(e), [])
  {
  }

  /** A `ToJSON` failure of the cancel request is returned as is, before
      any request is built or anything is sent. */
  lemma CancelOfferRejected<Req, Raw, T>(e: Error, env: Collaborators<Req, Raw, T>)
    ensures Execute(CancelOffer(Err(e)), env) == Run(Err(e), [])
  {
  }

  /** The body of a submitted offer is exactly the bytes its `ToJSON` gave. */
  lemma SubmitOfferRequestBuilt<Req, Raw, T>(bytes: string, env: Collaborators<Req, Raw, T>)
    ensures Execute(SubmitOffer(Ok(bytes)), env).trace[0] ==
      BuildRequest(PermissionWrite, "funding/offer/submit", Some(bytes))
  {
  }

  /** The body of a cancel is exactly the bytes its `ToJSON` gave. */
  lemma CancelOfferRequestBuilt<Req, Raw, T>(bytes: string, env: Collaborators<Req, Raw, T>)
    ensures Execute(CancelOffer(Ok(bytes)), env).trace[0] ==
      BuildRequest(PermissionWrite, "funding/offer/cancel", Some(bytes))
  {
  }

  /** Every endpoint lives under `funding/`. */
  lemma PathsUnderFunding(c: Call)
    requires WellFormed(c)
    ensures |PathOf(c)| > 8 && PathOf(c)[..8] == "funding/"
  {
    if IsQuery(c) {
      QueryPathLayout(c);
      QueryBaseInitial(c);
      QueryPathPrefix(QueryBase(c), c.symbol, IsHistory(c));
    }
  }

  /** A query path starts with the first nine characters of its base. */
  lemma QueryPathPrefix(base: string, symbol: string, history: bool)
    requires |base| > 8
    ensures var p := QueryPath(base, symbol, history); |p| > 8 && p[..8] == base[..8]
  {
    var active := if symbol == "" then base else base + "/" + symbol;
    assert active[..8] == base[..8];
  }

  /** A query never fails before the request factory is called: its first
      step builds a read-scoped request with no body. */
  lemma QueryRequestBuilt<Req, Raw, T>(c: Call, env: Collaborators<Req, Raw, T>)
    requires IsQuery(c) && IsSegment(c.symbol)
    ensures Execute(c, env).trace[0] == BuildRequest(PermissionRead, PathOf(c), None)
  {
  }

  /** The write endpoints post to fixed paths, whatever their arguments. */
  lemma WritePaths(offer: Result<string>, cancel: Result<string>, args: KeepFundingRequest)
    ensures PathOf(SubmitOffer(offer)) == "funding/offer/submit"
    ensures PathOf(CancelOffer(cancel)) == "funding/offer/cancel"
    ensures PathOf(KeepFunding(args)) == "funding/keep"
  {
  }

  /** The two elements `base` and `s` joined; an empty `s` is dropped. */
  lemma JoinTwo(base: string, s: string)
    requires base != ""
    ensures JoinPath([base, s]) == if s == "" then base else base + "/" + s
  {
    assert [base, s][1..] == [s];
    assert [s][1..] == [];
    assert NonEmpty([base, s]) == [base] + NonEmpty([s]);
    if s == "" {
      assert NonEmpty([base, s]) == [base];
    } else {
      assert NonEmpty([base, s]) == [base, s];
      assert JoinSlash([base, s]) == base + "/" + JoinSlash([s]);
    }
  }

  /** The three elements `base`, `s`, "hist" joined; an empty `s` is dropped. */
  lemma JoinThree(base: string, s: string)
    requires base != ""
    ensures JoinPath([base, s, "hist"]) == JoinPath([base, s]) + "/hist"
  {
    assert [base, s, "hist"][1..] == [s, "hist"];
    assert [s, "hist"][1..] == ["hist"];
    assert ["hist"][1..] == [];
    assert NonEmpty(["hist"]) == ["hist"];
    JoinTwo(base, s);
    if s == "" {
      assert NonEmpty([base, s, "hist"]) == [base, "hist"];
      assert JoinSlash([base, "hist"]) == base + "/" + JoinSlash(["hist"]);
    } else {
      assert NonEmpty([s, "hist"]) == [s, "hist"];
      assert NonEmpty([base, s, "hist"]) == [base, s, "hist"];
      assert JoinSlash([base, s, "hist"]) == base + "/" + JoinSlash([s, "hist"]);
      assert JoinSlash([s, "hist"]) == s + "/" + JoinSlash(["hist"]);
    }
  }

  /** The active queries read `funding/<kind>/<symbol>`, or `funding/<kind>`
      for an empty symbol. */
  lemma ActivePaths(s: string)
    requires IsSegment(s)
    ensures PathOf(Offers(s)) == if s == "" then "funding/offers" else "funding/offers/" + s
    ensures PathOf(Loans(s)) == if s == "" then "funding/loans" else "funding/loans/" + s
    ensures PathOf(Credits(s)) == if s == "" then "funding/credits" else "funding/credits/" + s
  {
    JoinTwo("funding/offers", s);
    JoinTwo("funding/loans", s);
    JoinTwo("funding/credits", s);
  }

  /** Each history path is its active path followed by `/hist`; trades
      exist only in the history form. */
  lemma HistoryPaths(s: string)
    requires IsSegment(s)
    ensures PathOf(OfferHistory(s)) == PathOf(Offers(s)) + "/hist"
    ensures PathOf(LoansHistory(s)) == PathOf(Loans(s)) + "/hist"
    ensures PathOf(CreditsHistory(s)) == PathOf(Credits(s)) + "/hist"
    ensures PathOf(Trades(s)) == (if s == "" then "funding/trades" else "funding/trades/" + s) + "/hist"
  {
    JoinThree("funding/offers", s);
    JoinThree("funding/loans", s);
    JoinThree("funding/credits", s);
    TradesPath(s);
  }

  lemma TradesPath(s: string)
    requires IsSegment(s)
    ensures PathOf(Trades(s)) == (if s == "" then "funding/trades" else "funding/trades/" + s) + "/hist"
  {
    JoinThree("funding/trades", s);
    JoinTwo("funding/trades", s);
  }

  /** The base path of a query: the resource it reads (offers, loans,
      credits or trades) under `funding/`. */
  function QueryBase(c: Call): string {
    match c
    case Offers(_) => "funding/offers"
    case OfferHistory(_) => "funding/offers"
    case Loans(_) => "funding/loans"
    case LoansHistory(_) => "funding/loans"
    case Credits(_) => "funding/credits"
    case CreditsHistory(_) => "funding/credits"
    case Trades(_) => "funding/trades"
    case _ => ""
  }

  predicate IsHistory(c: Call) {
    c.OfferHistory? || c.LoansHistory? || c.CreditsHistory? || c.Trades?
  }

  /** A query path laid out from its base, its symbol and its history flag. */
  function QueryPath(base: string, symbol: string, history: bool): string {
    var active := if symbol == "" then base else base + "/" + symbol;
    if history then active + "/hist" else active
  }

  /** Every query path is its base, then `/<symbol>` unless the symbol is
      empty, then `/hist` for the history forms. */
  lemma QueryPathLayout(c: Call)
    requires IsQuery(c) && IsSegment(c.symbol)
    ensures PathOf(c) == QueryPath(QueryBase(c), c.symbol, IsHistory(c))
  {
    var s := c.symbol;
    match c {
      case Offers(_) => JoinTwo("funding/offers", s);
      case OfferHistory(_) => JoinThree("funding/offers", s); JoinTwo("funding/offers", s);
      case Loans(_) => JoinTwo("funding/loans", s);
      case LoansHistory(_) => JoinThree("funding/loans", s); JoinTwo("funding/loans", s);
      case Credits(_) => JoinTwo("funding/credits", s);
      case CreditsHistory(_) => JoinThree("funding/credits", s); JoinTwo("funding/credits", s);
      case Trades(_) => JoinThree("funding/trades", s); JoinTwo("funding/trades", s);
    }
  }

  /** Two layouts differ when their bases differ at index 8, or when they
      share a base and only one is a history path. */
  lemma QueryPathsDiffer(b1: string, b2: string, s: string, h1: bool, h2: bool)
    requires |b1| > 8 && |b2| > 8
    requires b1[8] != b2[8] || (b1 == b2 && h1 != h2)
    ensures QueryPath(b1, s, h1) != QueryPath(b2, s, h2)
  {
    var p1, p2 := QueryPath(b1, s, h1), QueryPath(b2, s, h2);
    if b1[8] != b2[8] {
      assert p1[8] == b1[8] && p2[8] == b2[8];
    } else {
      assert |p1| != |p2|;
    }
  }

  /** The first letter of the resource, which tells the four bases apart. */
  lemma QueryBaseInitial(c: Call)
    requires IsQuery(c)
    ensures |QueryBase(c)| > 8
    ensures QueryBase(c)[8] == if c.Offers? || c.OfferHistory? then 'o'
                               else if c.Loans? || c.LoansHistory? then 'l'
                               else if c.Credits? || c.CreditsHistory? then 'c'
                               else 't'
  {
  }

  /** For one symbol, no two query methods ask for the same path. */
  lemma QueryPathsDistinct(c1: Call, c2: Call)
    requires IsQuery(c1) && IsQuery(c2) && c1.symbol == c2.symbol && IsSegment(c1.symbol)
    requires c1 != c2
    ensures PathOf(c1) != PathOf(c2)
  {
    QueryPathLayout(c1);
    QueryPathLayout(c2);
    QueryBaseInitial(c1);
    QueryBaseInitial(c2);
    var b1, b2 := QueryBase(c1), QueryBase(c2);
    assert b1[8] == b2[8] ==> b1 == b2 && IsHistory(c1) != IsHistory(c2);
    QueryPathsDiffer(b1, b2, c1.symbol, IsHistory(c1), IsHistory(c2));
  }
}
