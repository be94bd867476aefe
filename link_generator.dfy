/** The link generator: validation of the four form fields, the feedback URL with its query
    parameters, the QR-code image URL, appending the new link to the list that is shown and
    persisted, and the QR download file name. The id, the page origin and the creation time are
    parameters (they come from the clock, the random generator and the browser). */
module LinkGenerator {
  import opened Wrappers
  import opened Text
  import opened Uri

  /** The QR service's endpoint, up to and including the `?` that opens its query. */
  const QrEndpoint := "https://api.qrserver.com/v1/create-qr-code/?"
  const QrSize := "size=200x200"
  /** Everything of the QR URL before the encoded data. */
  const QrPrefix := QrEndpoint + QrSize + "&data="

  /** `generateQRCode(url)`. */
  function QrCodeUrl(url: string): string
  {
    QrPrefix + Enc(url)
  }

  /** The QR URL has two query parameters, the fixed size and the data, and the data decodes
      to the URL it was made from. */
  lemma QrCodeUrlSpec(url: string)
    ensures '&' !in Enc(url)
    ensures StartsWith(QrCodeUrl(url), QrEndpoint)
    ensures Split(QrCodeUrl(url)[|QrEndpoint|..], '&') == [QrSize, "data=" + Enc(url)]
    ensures Dec(QrCodeUrl(url)[|QrPrefix|..]) == url
  {
    EncHasNoDelimiters(url);
    QrSplit(Enc(url));
    DecEnc(url);
  }

  lemma QrSplit(e: string)
    requires '&' !in e
    ensures StartsWith(QrPrefix + e, QrEndpoint)
    ensures Split((QrPrefix + e)[|QrEndpoint|..], '&') == [QrSize, "data=" + e]
    ensures (QrPrefix + e)[|QrPrefix|..] == e
  {
    var q := QrPrefix + e;
    assert q == QrEndpoint + (QrSize + ['&'] + ("data=" + e));
    assert q[..|QrEndpoint|] == QrEndpoint;
    assert q[|QrEndpoint|..] == QrSize + ['&'] + ("data=" + e);
    assert '&' !in "data=";
    SplitAtFirst(QrSize, '&', "data=" + e);
    SplitWithout("data=" + e, '&');
  }

  /** The query parameters of a feedback URL: `ref`, `customer`, `name` and `concern`, in
      this order. The id is inserted as it is; the other values are percent-encoded. */
  function Parameters(id: string, customerNumber: string, firstName: string, lastName: string, concern: string): seq<string>
  {
    ["ref=" + id, "customer=" + Enc(customerNumber), "name=" + Enc(firstName + " " + lastName), "concern=" + Enc(concern)]
  }

  /** The feedback URL built in `handleGenerate`: the origin, `/?`, and the parameters joined by `&`. */
  function FeedbackUrl(origin: string, id: string, customerNumber: string, firstName: string, lastName: string, concern: string): string
  {
    origin + "/?" + Join(Parameters(id, customerNumber, firstName, lastName, concern), "&")
  }

  /** Spelled out, the feedback URL is the template string of `handleGenerate`. */
  lemma FeedbackUrlTemplate(origin: string, id: string, customerNumber: string, firstName: string, lastName: string, concern: string)
    ensures FeedbackUrl(origin, id, customerNumber, firstName, lastName, concern) ==
      origin + "/?ref=" + id + "&customer=" + Enc(customerNumber) +
      "&name=" + Enc(firstName + " " + lastName) + "&concern=" + Enc(concern)
  {
    var e1, e2, e3 := Enc(customerNumber), Enc(firstName + " " + lastName), Enc(concern);
    JoinFour("ref=" + id, "customer=" + e1, "name=" + e2, "concern=" + e3, "&");
    Regroup(origin, id, e1, e2, e3);
  }

  lemma Regroup(origin: string, id: string, e1: string, e2: string, e3: string)
    ensures origin + "/?" + (("ref=" + id) + "&" + ("customer=" + e1) + "&" + ("name=" + e2) + "&" + ("concern=" + e3)) ==
      origin + "/?ref=" + id + "&customer=" + e1 + "&name=" + e2 + "&concern=" + e3
  {
  }

  /** When the id has no `&`, the query of the feedback URL splits into exactly the four
      parameters, and the encoded values decode to the form's values. */
  lemma FeedbackUrlSpec(origin: string, id: string, customerNumber: string, firstName: string, lastName: string, concern: string)
    requires '&' !in id
    ensures StartsWith(FeedbackUrl(origin, id, customerNumber, firstName, lastName, concern), origin + "/?")
    ensures Split(FeedbackUrl(origin, id, customerNumber, firstName, lastName, concern)[|origin| + 2..], '&') ==
      Parameters(id, customerNumber, firstName, lastName, concern)
    ensures Dec(Enc(customerNumber)) == customerNumber && Dec(Enc(concern)) == concern
    ensures Dec(Enc(firstName + " " + lastName)) == firstName + " " + lastName
  {
    var url := FeedbackUrl(origin, id, customerNumber, firstName, lastName, concern);
    var p := Parameters(id, customerNumber, firstName, lastName, concern);
    var j := Join(p, "&");
    assert url == (origin + "/?") + j;
    assert url[..|origin| + 2] == origin + "/?";
    assert url[|origin| + 2..] == j;
    ParametersHaveNoAmpersand(id, customerNumber, firstName, lastName, concern);
    SplitJoin(p, '&');
    DecEnc(customerNumber);
    DecEnc(concern);
    DecEnc(firstName + " " + lastName);
  }

  lemma ParametersHaveNoAmpersand(id: string, customerNumber: string, firstName: string, lastName: string, concern: string)
    requires '&' !in id
    ensures forall i :: 0 <= i < 4 ==> '&' !in Parameters(id, customerNumber, firstName, lastName, concern)[i]
  {
    EncHasNoDelimiters(customerNumber);
    EncHasNoDelimiters(firstName + " " + lastName);
    EncHasNoDelimiters(concern);
  }

  /** The name the QR image is saved under: `qr-code-${customerNumber}-${id}.png`. */
  function QrFileName(customerNumber: string, id: string): string
  {
    "qr-code-" + customerNumber + "-" + id + ".png"
  }

  /** The file name determines the customer number and the id when ids have no `-` (the
      generated ones are digits and base-36 letters). */
  lemma QrFileNameInjective(c1: string, id1: string, c2: string, id2: string)
    requires '-' !in id1 && '-' !in id2
    ensures QrFileName(c1, id1) == QrFileName(c2, id2) <==> c1 == c2 && id1 == id2
  {
    var f1, f2 := QrFileName(c1, id1), QrFileName(c2, id2);
    if f1 == f2 {
      var a, b := c1 + "-" + id1, c2 + "-" + id2;
      assert a == f1[8..|f1| - 4] && b == f2[8..|f2| - 4];
      DashSplitUnique(c1, id1, c2, id2);
    }
  }

  lemma DashSplitUnique(c1: string, id1: string, c2: string, id2: string)
    requires '-' !in id1 && '-' !in id2
    requires c1 + "-" + id1 == c2 + "-" + id2
    ensures c1 == c2 && id1 == id2
  {
    var s := c1 + "-" + id1;
    LastDash(c1, id1);
    LastDash(c2, id2);
    assert |c1| == |c2|;
    assert c1 == s[..|c1|] == c2;
    assert id1 == s[|c1| + 1..] == id2;
  }

  /** In `c + "-" + id` with no `-` in `id`, the last `-` is the one between them. */
  lemma LastDash(c: string, id: string)
    requires '-' !in id
    ensures (c + "-" + id)[|c|] == '-'
    ensures forall k :: |c| < k < |c| + 1 + |id| ==> (c + "-" + id)[k] != '-'
  {
    var s := c + "-" + id;
    forall k | |c| < k < |c| + 1 + |id| ensures s[k] != '-' {
      assert s[k] == id[k - |c| - 1];
    }
  }

  /** A generated link, as kept in the list and in local storage. */
  datatype GeneratedLink = GeneratedLink(
    id: string,
    customerNumber: string,
    concern: string,
    firstName: string,
    lastName: string,
    feedbackUrl: string,
    qrCodeUrl: string,
    createdAt: string,
    used: bool)

  datatype GenerateOutcome = MissingFields | StorageFailed | Generated(link: GeneratedLink)

  /** The link `handleGenerate` builds from the form, a fresh id, the origin and the clock. */
  function NewLink(origin: string, id: string, createdAt: string, customerNumber: string, concern: string, firstName: string, lastName: string): (link: GeneratedLink)
    ensures link.id == id && !link.used
    ensures link.customerNumber == customerNumber && link.concern == concern
    ensures link.firstName == firstName && link.lastName == lastName
    ensures link.feedbackUrl == FeedbackUrl(origin, id, customerNumber, firstName, lastName, concern)
    ensures link.qrCodeUrl == QrCodeUrl(link.feedbackUrl)
    ensures link.createdAt == createdAt
  {
    var url := FeedbackUrl(origin, id, customerNumber, firstName, lastName, concern);
    GeneratedLink(id, customerNumber, concern, firstName, lastName, url, QrCodeUrl(url), createdAt, false)
  }

  class Generator {
    var customerNumber: string
    var concern: string
    var firstName: string
    var lastName: string
    var isGenerating: bool
    var generatedLinks: seq<GeneratedLink>
    /** The `feedbackLinks` entry of local storage; `None` when there is none. */
    var persisted: Option<seq<GeneratedLink>>

    constructor (stored: Option<seq<GeneratedLink>>)
      ensures customerNumber == "" && concern == "" && firstName == "" && lastName == ""
      ensures !isGenerating && persisted == stored
      ensures generatedLinks == []
    {
      customerNumber, concern, firstName, lastName := "", "", "", "";
      isGenerating := false;
      generatedLinks := [];
      persisted := stored;
    }

    /** The effect on mount: a stored list replaces the (empty) list shown. */
    method LoadStored()
      modifies this
      ensures persisted.Some? ==> generatedLinks == persisted.value
      ensures persisted.None? ==> generatedLinks == old(generatedLinks)
      ensures persisted == old(persisted) && isGenerating == old(isGenerating)
      ensures customerNumber == old(customerNumber) && concern == old(concern)
      ensures firstName == old(firstName) && lastName == old(lastName)
    {
      if persisted.Some? {
        generatedLinks := persisted.value;
      }
    }

    /** The form's change handlers. */
    method SetFields(customer: string, concernValue: string, first: string, last: string)
      modifies this
      ensures customerNumber == customer && concern == concernValue && firstName == first && lastName == last
      ensures generatedLinks == old(generatedLinks) && persisted == old(persisted) && isGenerating == old(isGenerating)
    {
      customerNumber, concern, firstName, lastName := customer, concernValue, first, last;
    }

    /** `handleGenerate`. An empty field refuses the request and changes nothing (fields are
        not trimmed). Otherwise the new unused link is appended to the list shown; when
        storing the list succeeds the stored list equals it and the form is cleared. When
        storing fails (the `catch` branch) the list shown already has the new link while the
        store keeps its old content and the form keeps its values. */
    method Generate(origin: string, id: string, createdAt: string, storageFails: bool) returns (outcome: GenerateOutcome)
      modifies this
      ensures old(customerNumber == "" || concern == "" || firstName == "" || lastName == "") <==> outcome == MissingFields
      ensures old(customerNumber == "" || concern == "" || firstName == "" || lastName == "") ==>
        generatedLinks == old(generatedLinks) && persisted == old(persisted) &&
        customerNumber == old(customerNumber) && concern == old(concern) &&
        firstName == old(firstName) && lastName == old(lastName)
      ensures !old(customerNumber == "" || concern == "" || firstName == "" || lastName == "") ==>
        generatedLinks == old(generatedLinks) + [NewLink(origin, id, createdAt, old(customerNumber), old(concern), old(firstName), old(lastName))]
      ensures !old(customerNumber == "" || concern == "" || firstName == "" || lastName == "") && !storageFails ==>
        outcome == Generated(generatedLinks[|generatedLinks| - 1]) &&
        persisted == Some(generatedLinks) &&
        customerNumber == "" && concern == "" && firstName == "" && lastName == ""
      ensures !old(customerNumber == "" || concern == "" || firstName == "" || lastName == "") && storageFails ==>
        outcome == StorageFailed && persisted == old(persisted) &&
        customerNumber == old(customerNumber) && concern == old(concern) &&
        firstName == old(firstName) && lastName == old(lastName)
      ensures outcome == MissingFields ==> isGenerating == old(isGenerating)
      ensures outcome != MissingFields ==> !isGenerating
    {
      if customerNumber == "" || concern == "" || firstName == "" || lastName == "" {
        return MissingFields;
      }
      isGenerating := true;
      var link := NewLink(origin, id, createdAt, customerNumber, concern, firstName, lastName);
      generatedLinks := generatedLinks + [link];
      if storageFails {
        outcome := StorageFailed;
      } else {
        persisted := Some(generatedLinks);
        customerNumber, concern, firstName, lastName := "", "", "", "";
        outcome := Generated(link);
      }
      isGenerating := false;
    }
  }

  /** Two links generated in a row are listed in order, the stored list is the list shown,
      and a third request with the cleared form is refused. */
  method GenerateTwice(origin: string, id1: string, id2: string, now: string, customer: string, concern: string, first: string, last: string)
    requires customer != "" && concern != "" && first != "" && last != ""
  {
    var g := new Generator(None);
    g.SetFields(customer, concern, first, last);
    var one := g.Generate(origin, id1, now, false);
    assert one.Generated? && g.customerNumber == "";
    g.SetFields(customer, concern, first, last);
    var two := g.Generate(origin, id2, now, false);
    assert |g.generatedLinks| == 2 && g.generatedLinks[0].id == id1 && g.generatedLinks[1].id == id2;
    assert g.persisted == Some(g.generatedLinks);
    var three := g.Generate(origin, id2, now, false);
    assert three == MissingFields && |g.generatedLinks| == 2;
  }
}
