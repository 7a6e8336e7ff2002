/**
 * The decisions app.js makes without touching the page: reading the tag from the
 * query string, choosing between the structured card and the raw text, picking
 * each displayed field from its aliases, and mapping the response status to a
 * pill.
 */
module AppLogic {
  import opened Wrappers
  import opened Json
  import opened JsText

  // ---------------------------------------------------------------------------
  // The tag in the page URL
  // ---------------------------------------------------------------------------

  /**
   * `getTagFromUrl`, given what `URLSearchParams.get("tag")` returned: no tag
   * when the parameter is missing, empty or whitespace only, and otherwise the
   * parameter trimmed, which is never empty and is its own trim.
   */
  function TagFromQuery(param: Option<string>): (r: Option<string>)
    ensures r.None? <==> param.None? || AllTrimmable(param.value)
    ensures r.Some? ==> r.value == Trim(param.value) && r.value != [] && Trim(r.value) == r.value
  {
    match param
    case None => None
    case Some(tag) =>
      if tag != "" && Trim(tag) != "" then
        TrimIdempotent(tag);
        Some(Trim(tag))
      else None
  }

  // ---------------------------------------------------------------------------
  // JavaScript `||` chains
  // ---------------------------------------------------------------------------

  /** `x0 || x1 || … || xn`: the first truthy operand, else the last operand. */
  function OrChain(xs: seq<Json>): (r: Json)
    requires xs != []
    ensures r in xs
    ensures Truthy(r) <==> exists i :: 0 <= i < |xs| && Truthy(xs[i])
  {
    if |xs| == 1 || Truthy(xs[0]) then xs[0] else OrChain(xs[1..])
  }

  /** A chain picks operand `k` when every operand before it is falsy and `k` is truthy or last. */
  lemma {:induction false} OrChainPicks(xs: seq<Json>, k: nat)
    requires k < |xs|
    requires forall j :: 0 <= j < k ==> !Truthy(xs[j])
    requires Truthy(xs[k]) || k == |xs| - 1
    ensures OrChain(xs) == xs[k]
  {
    if k > 0 {
      assert !Truthy(xs[0]) && |xs| > 1;
      OrChainPicks(xs[1..], k - 1);
    }
  }

  // ---------------------------------------------------------------------------
  // Structured card or raw text
  // ---------------------------------------------------------------------------

  /** The keys whose presence marks a response as a registry row. */
  const RegistryKeys: set<string> := {"tagId", "tag", "brewery", "product"}

  /**
   * `parsed && (parsed.tagId || parsed.tag || parsed.brewery || parsed.product)`,
   * as the condition of an `if`: a `||` chain is truthy when one of its operands is.
   */
  predicate IsStructured(parsed: Json) {
    && Truthy(parsed)
    && (|| Truthy(Member(parsed, "tagId")) || Truthy(Member(parsed, "tag"))
        || Truthy(Member(parsed, "brewery")) || Truthy(Member(parsed, "product")))
  }

  /** The card is shown exactly for an object with a truthy `tagId`, `tag`, `brewery` or `product`. */
  lemma StructuredIff(parsed: Json)
    ensures IsStructured(parsed) <==>
      parsed.JObject? && exists k :: k in RegistryKeys && k in parsed.fields && Truthy(parsed.fields[k])
  {
    if parsed.JObject? && exists k :: k in RegistryKeys && k in parsed.fields && Truthy(parsed.fields[k]) {
      var k :| k in RegistryKeys && k in parsed.fields && Truthy(parsed.fields[k]);
      assert Truthy(Member(parsed, k));
    }
  }

  /** What `JSON.parse` left in `parsed`: the value, or `null` when the body is not JSON. */
  function ParsedOrNull(parsed: Option<Json>): (v: Json)
    ensures parsed.None? ==> !IsStructured(v)
    ensures parsed.Some? ==> v == parsed.value
  {
    if parsed.Some? then parsed.value else JNull
  }

  // ---------------------------------------------------------------------------
  // Field aliases and defaults
  // ---------------------------------------------------------------------------

  /** `parsed[first] || parsed[second] || fallback`: the first truthy alias, else the default. */
  function Alias(parsed: Json, first: string, second: string, fallback: string): (r: Json)
    ensures Truthy(Member(parsed, first)) ==> r == Member(parsed, first)
    ensures !Truthy(Member(parsed, first)) && Truthy(Member(parsed, second)) ==> r == Member(parsed, second)
    ensures !Truthy(Member(parsed, first)) && !Truthy(Member(parsed, second)) ==> r == JString(fallback)
  {
    var xs := [Member(parsed, first), Member(parsed, second), JString(fallback)];
    if Truthy(xs[0]) then OrChainPicks(xs, 0); OrChain(xs)
    else if Truthy(xs[1]) then OrChainPicks(xs, 1); OrChain(xs)
    else OrChainPicks(xs, 2); OrChain(xs)
  }

  const Unknown := "Unknown"
  const Dash := "\U{2014}"
  const DefaultKind := "Tag"
  const DefaultStatus := "verified"

  /** The values the structured card displays, each as the JSON value it was taken from. */
  datatype TagCard = TagCard(
    response: Json, tagId: Json, kind: Json, brewery: Json,
    product: Json, line: Json, location: Json)

  /** The card for a structured response; `CardPopulated` states that every field is truthy. */
  function CardOf(parsed: Json): TagCard {
    TagCard(
      response := Alias(parsed, "status", "state", DefaultStatus),
      tagId := Alias(parsed, "tagId", "tag", Unknown),
      kind := Alias(parsed, "type", "deviceType", DefaultKind),
      brewery := Alias(parsed, "brewery", "brand", Unknown),
      product := Alias(parsed, "product", "beer", Unknown),
      line := Alias(parsed, "line", "lineNumber", Dash),
      location := Alias(parsed, "location", "site", Dash))
  }

  /**
   * Whether `renderResult` can write the card: it converts the status with
   * `String` and interpolates all seven values into its markup, and each of
   * those conversions throws on a value that is not printable.
   */
  predicate CardPrintable(c: TagCard) {
    && Printable(c.response) && Printable(c.tagId) && Printable(c.kind) && Printable(c.brewery)
    && Printable(c.product) && Printable(c.line) && Printable(c.location)
  }

  /**
   * A registry row whose status is an object with its own "toString" key is
   * structured, yet its card cannot be written: `String(status)` throws.
   */
  lemma ObjectStatusIsUnprintable(parsed: Json)
    requires parsed == JObject(map["tagId" := JString("A"), "status" := JObject(map["toString" := JInt(0)])])
    ensures IsStructured(parsed)
    ensures !Printable(CardOf(parsed).response) && !CardPrintable(CardOf(parsed))
  {
    assert Member(parsed, "tagId") == JString("A");
    assert Member(parsed, "status") == JObject(map["toString" := JInt(0)]);
  }

  /**
   * Every field of the card is truthy: none is null, `""`, `0` or `false`. An
   * array-valued field can still print as the empty string (`BlankArrays`).
   */
  lemma CardPopulated(parsed: Json)
    ensures var c := CardOf(parsed);
      && Truthy(c.response) && Truthy(c.tagId) && Truthy(c.kind) && Truthy(c.brewery)
      && Truthy(c.product) && Truthy(c.line) && Truthy(c.location)
  {
  }

  /** When every primary key holds a truthy value, the card shows exactly those values, whatever the secondary aliases say. */
  lemma CardPrefersPrimaryAliases(parsed: Json)
    requires parsed.JObject?
    requires Truthy(Member(parsed, "status")) && Truthy(Member(parsed, "tagId"))
    requires Truthy(Member(parsed, "type")) && Truthy(Member(parsed, "brewery"))
    requires Truthy(Member(parsed, "product")) && Truthy(Member(parsed, "line"))
    requires Truthy(Member(parsed, "location"))
    ensures var c := CardOf(parsed);
      && c.response == parsed.fields["status"] && c.tagId == parsed.fields["tagId"]
      && c.kind == parsed.fields["type"] && c.brewery == parsed.fields["brewery"]
      && c.product == parsed.fields["product"] && c.line == parsed.fields["line"]
      && c.location == parsed.fields["location"]
  {
  }

  // ---------------------------------------------------------------------------
  // Status pill for a structured response
  // ---------------------------------------------------------------------------

  /** The text and variant passed to `setStatus`. */
  datatype Verdict = Verdict(text: string, variant: string)

  const Flagged := Verdict("Flagged", "bad")
  const NotFound := Verdict("Not found", "bad")
  const Confirmed := Verdict("Verified", "ok")

  /** `String(status).toLowerCase()`. */
  function StatusText(status: Json): string
    requires Printable(status)
  {
    Lower(ToJsString(status))
  }

  /** The status mapping, as `renderResult` writes it; `ClassifyByOccurrence` states what it decides. */
  function Classify(status: Json): Verdict
    requires Printable(status)
  {
    var s := StatusText(status);
    if Contains(s, "fail") then Flagged
    else if Contains(s, "not") then NotFound
    else Confirmed
  }

  /**
   * On the lowercased `String(status)`, an occurrence of "fail" flags the tag;
   * failing that, an occurrence of "not" means not found; with neither, the
   * tag is verified. "fail" is tested first.
   */
  lemma ClassifyByOccurrence(status: Json)
    requires Printable(status)
    ensures var s := StatusText(status);
      (exists i :: OccursAt("fail", s, i)) ==> Classify(status) == Flagged
    ensures var s := StatusText(status);
      (forall i :: !OccursAt("fail", s, i)) && (exists i :: OccursAt("not", s, i)) ==> Classify(status) == NotFound
    ensures var s := StatusText(status);
      (forall i :: !OccursAt("fail", s, i)) && (forall i :: !OccursAt("not", s, i)) ==> Classify(status) == Confirmed
  {
    var s := StatusText(status);
    ContainsIff(s, "fail");
    ContainsIff(s, "not");
  }

  /** "fail" is tested before "not": a string status mentioning both, such as "not failed", flags the tag. */
  lemma FailTakesPrecedence(text: string, i: int, j: int)
    requires OccursAt("fail", Lower(text), i) && OccursAt("not", Lower(text), j)
    ensures Classify(JString(text)) == Flagged
  {
    ClassifyByOccurrence(JString(text));
  }

  /** The status text is lowercased first, so the mapping ignores the case of a string status. */
  lemma ClassifyIgnoresCase(s: string)
    ensures Classify(JString(s)) == Classify(JString(Lower(s)))
  {
    LowerIdempotent(s);
  }

  /** A text in which no "f" is followed by "a" and no "n" by "o" mentions neither "fail" nor "not". */
  lemma NoFlagWords(s: string)
    requires forall i :: 0 <= i < |s| - 1 ==> !(s[i] == 'f' && s[i + 1] == 'a') && !(s[i] == 'n' && s[i + 1] == 'o')
    ensures forall i :: !OccursAt("fail", s, i) && !OccursAt("not", s, i)
  {
    forall i | 0 <= i && i + 2 <= |s|
      ensures !OccursAt("fail", s, i) && !OccursAt("not", s, i)
    {
      assert |s[i..i + 2]| == 2 && s[i..i + 2][0] == s[i] && s[i..i + 2][1] == s[i + 1];
    }
  }

  /** A status whose lowercased text has no "a" and no "o" can spell neither "fail" nor "not", so it is verified. */
  lemma NoFlagLettersIsVerified(status: Json)
    requires Printable(status)
    requires forall i :: 0 <= i < |StatusText(status)| ==> StatusText(status)[i] != 'a' && StatusText(status)[i] != 'o'
    ensures Classify(status) == Confirmed
  {
    ClassifyByOccurrence(status);
    NoFlagWords(StatusText(status));
  }

  /** A string status without capitals is its own status text. */
  lemma LowercaseStatusText(status: Json)
    requires status.JString? && forall i :: 0 <= i < |status.s| ==> !('A' <= status.s[i] <= 'Z')
    ensures StatusText(status) == status.s
  {
    LowerKeepsLowercase(status.s);
  }

  /**
   * The default status "verified" maps to a Verified pill. The status is a
   * parameter fixed by the precondition rather than a literal, which keeps the
   * solver from unfolding the string search over the literal.
   */
  lemma DefaultStatusIsVerified(status: Json)
    requires status == JString(DefaultStatus)
    ensures Classify(status) == Confirmed
  {
    LowercaseStatusText(status);
    NoFlagLettersIsVerified(status);
  }

  /** A response without a truthy `status` or `state` shows "verified" and a Verified pill. */
  lemma AbsentStatusIsVerified(parsed: Json)
    requires !Truthy(Member(parsed, "status")) && !Truthy(Member(parsed, "state"))
    ensures CardOf(parsed).response == JString(DefaultStatus)
    ensures Classify(CardOf(parsed).response) == Confirmed
  {
    DefaultStatusIsVerified(CardOf(parsed).response);
  }

  /** A numeric status never flags the tag: its decimal text has no letters. */
  lemma NumericStatusIsVerified(n: int)
    ensures Classify(JInt(n)) == Confirmed
  {
    ClassifyByOccurrence(JInt(n));
    var t := ToJsString(JInt(n));
    assert forall i :: 0 <= i < |t| ==> t[i] == '-' || '0' <= t[i] <= '9';
    LowerKeepsLowercase(t);
    assert StatusText(JInt(n)) == t;
    NoFlagWords(t);
  }

  /** A registry row with status, tagId, brewery and product. */
  function RegistryRow(): Json {
    JObject(map["status" := JString("ok"), "tagId" := JString("NRS-0001"),
                "brewery" := JString("Acme"), "product" := JString("NA Lager")])
  }

  /** What each property read of that row gives. */
  lemma RegistryRowMembers(row: Json)
    requires row == RegistryRow()
    ensures Member(row, "status") == JString("ok")
    ensures Member(row, "tagId") == JString("NRS-0001")
    ensures Member(row, "brewery") == JString("Acme")
    ensures Member(row, "product") == JString("NA Lager")
    ensures Member(row, "type") == JNull && Member(row, "deviceType") == JNull
    ensures Member(row, "line") == JNull && Member(row, "lineNumber") == JNull
    ensures Member(row, "location") == JNull && Member(row, "site") == JNull
  {
  }

  /** That row has a truthy `tagId`, so it is shown as a card. */
  lemma RegistryRowIsStructured(row: Json)
    requires row == RegistryRow()
    ensures IsStructured(row)
  {
    RegistryRowMembers(row);
  }

  /** The card of that row, with the absent type, line and location filled in by their defaults. */
  lemma RegistryRowCard(row: Json)
    requires row == RegistryRow()
    ensures CardOf(row) == TagCard(JString("ok"), JString("NRS-0001"), JString(DefaultKind),
                                    JString("Acme"), JString("NA Lager"), JString(Dash), JString(Dash))
  {
    RegistryRowMembers(row);
    assert Alias(row, "status", "state", DefaultStatus) == JString("ok");
    assert Alias(row, "tagId", "tag", Unknown) == JString("NRS-0001");
    assert Alias(row, "type", "deviceType", DefaultKind) == JString(DefaultKind);
    assert Alias(row, "brewery", "brand", Unknown) == JString("Acme");
    assert Alias(row, "product", "beer", Unknown) == JString("NA Lager");
    assert Alias(row, "line", "lineNumber", Dash) == JString(Dash);
    assert Alias(row, "location", "site", Dash) == JString(Dash);
  }

  /** A status of "ok" maps to a Verified pill (a parameter fixed by the precondition, as in `DefaultStatusIsVerified`). */
  lemma OkStatusIsVerified(status: Json)
    requires status == JString("ok")
    ensures Classify(status) == Confirmed
  {
    ClassifyByOccurrence(status);
    LowercaseStatusText(status);
    NoFlagWords(StatusText(status));
  }
}
