/** The REST handlers of the backend: the `feedback_links` and `feedback` tables as an
    in-memory store, and each handler as a method on it. A failing database query is the
    `fails`/`fault` parameter; the uuid and the clock are parameters too. */
module Routes {
  import opened Wrappers
  import opened Seqs

  /** A string field of a JSON request body: absent (`undefined`/`null`) or a string. */
  predicate Truthy(f: Option<string>)
  {
    f.Some? && f.value != ""
  }

  /** A numeric field: absent, or a number; `0` is falsy in JavaScript. */
  predicate TruthyNumber(n: Option<int>)
  {
    n.Some? && n.value != 0
  }

  /** A row of `feedback_links`, with the columns' own names. Timestamps are milliseconds. */
  datatype LinkRow = LinkRow(
    id: string, customer_number: string, concern: string, first_name: string, last_name: string,
    feedback_url: string, qr_code_url: string, created_at: int, used: bool)

  /** A feedback link as the API returns it. */
  datatype Link = Link(
    id: string, customerNumber: string, concern: string, firstName: string, lastName: string,
    feedbackUrl: string, qrCodeUrl: string, createdAt: int, used: bool)

  /** A row of `feedback`; the optional body fields are stored as given, `NULL` when absent. */
  datatype FeedbackRow = FeedbackRow(
    id: string, rating: int, comment: Option<string>, timestamp: int, customer: Option<string>,
    customer_name: Option<string>, concern: Option<string>, ref_id: string)

  datatype CreateLinkBody = CreateLinkBody(
    customerNumber: Option<string>, concern: Option<string>, firstName: Option<string>,
    lastName: Option<string>, feedbackUrl: Option<string>, qrCodeUrl: Option<string>)

  /** The `data` of a successful `POST /feedback-links`. */
  datatype CreatedLink = CreatedLink(id: string, feedbackUrl: string, qrCodeUrl: string, concernText: string, createdAt: int)

  datatype FeedbackBody = FeedbackBody(
    rating: Option<int>, comment: Option<string>, customer: Option<string>,
    customerName: Option<string>, concern: Option<string>, refId: Option<string>)

  /** What a handler answers: the JSON `data` with status 200, or one of the error replies. */
  datatype Response<T> = Ok(data: T) | BadRequest(error: string) | NotFound(error: string) | DatabaseError
  {
    function Status(): int
    {
      match this
      case Ok(_) => 200
      case BadRequest(_) => 400
      case NotFound(_) => 404
      case DatabaseError => 500
    }
  }

  /** Which of the two queries of `POST /feedback` fails, if any. */
  datatype SubmitFault = NoFault | InsertFails | UpdateFails

  const MissingFields := "Missing fields"
  const MissingFeedbackFields := "Missing required fields (rating, refId)"
  const NotFoundError := "Not found"

  /** `mapLinkRow`: every column under its camelCase name. */
  function MapLinkRow(row: LinkRow): (link: Link)
    ensures UnmapLink(link) == row
  {
    Link(row.id, row.customer_number, row.concern, row.first_name, row.last_name,
         row.feedback_url, row.qr_code_url, row.created_at, row.used)
  }

  /** The row a link was mapped from. */
  function UnmapLink(link: Link): LinkRow
  {
    LinkRow(link.id, link.customerNumber, link.concern, link.firstName, link.lastName,
            link.feedbackUrl, link.qrCodeUrl, link.createdAt, link.used)
  }

  /** The mapping loses nothing in either direction, so it is a bijection. */
  lemma MapLinkRowBijective(row: LinkRow, link: Link)
    ensures MapLinkRow(UnmapLink(link)) == link
    ensures MapLinkRow(row) == link <==> row == UnmapLink(link)
  {
  }

  function CreatedAt(link: Link): int
  {
    link.createdAt
  }

  function Timestamp(row: FeedbackRow): int
  {
    row.timestamp
  }

  predicate LinkBodyComplete(body: CreateLinkBody)
  {
    Truthy(body.customerNumber) && Truthy(body.concern) && Truthy(body.firstName) &&
    Truthy(body.lastName) && Truthy(body.feedbackUrl) && Truthy(body.qrCodeUrl)
  }

  predicate FeedbackBodyComplete(body: FeedbackBody)
  {
    TruthyNumber(body.rating) && Truthy(body.refId)
  }

  /** The row `POST /feedback-links` inserts: the client's values, unused. */
  function NewLinkRow(body: CreateLinkBody, id: string, now: int): (row: LinkRow)
    requires LinkBodyComplete(body)
    ensures !row.used && row.id == id && row.created_at == now
    ensures body.customerNumber == Some(row.customer_number) && body.concern == Some(row.concern)
    ensures body.firstName == Some(row.first_name) && body.lastName == Some(row.last_name)
    ensures body.feedbackUrl == Some(row.feedback_url) && body.qrCodeUrl == Some(row.qr_code_url)
  {
    LinkRow(id, body.customerNumber.value, body.concern.value, body.firstName.value, body.lastName.value,
            body.feedbackUrl.value, body.qrCodeUrl.value, now, false)
  }

  /** The row `POST /feedback` inserts. */
  function NewFeedbackRow(body: FeedbackBody, id: string, now: int): (row: FeedbackRow)
    requires FeedbackBodyComplete(body)
    ensures row.id == id && body.refId == Some(row.ref_id) && row.timestamp == now
    ensures body.rating == Some(row.rating)
    ensures row.comment == body.comment && row.customer == body.customer
    ensures row.customer_name == body.customerName && row.concern == body.concern
  {
    FeedbackRow(id, body.rating.value, body.comment, now, body.customer, body.customerName,
                body.concern, body.refId.value)
  }

  /** Every link is stored under its own id. */
  ghost predicate KeyedById(links: map<string, LinkRow>)
  {
    forall k :: k in links ==> links[k].id == k
  }

  predicate FeedbackIdTaken(feedback: seq<FeedbackRow>, id: string)
  {
    exists i :: 0 <= i < |feedback| && feedback[i].id == id
  }

  ghost predicate DistinctFeedbackIds(feedback: seq<FeedbackRow>)
  {
    forall i, j :: 0 <= i < j < |feedback| ==> feedback[i].id != feedback[j].id
  }

  /** `UPDATE feedback_links SET used = TRUE WHERE id = $1`. */
  function MarkUsed(links: map<string, LinkRow>, id: string): (r: map<string, LinkRow>)
    ensures r.Keys == links.Keys
    ensures forall k :: k in r ==> r[k] == if k == id then links[k].(used := true) else links[k]
  {
    if id in links then links[id := links[id].(used := true)] else links
  }

  /** Marking twice is marking once: repeated submissions leave the link used. */
  lemma MarkUsedIdempotent(links: map<string, LinkRow>, id: string)
    ensures MarkUsed(MarkUsed(links, id), id) == MarkUsed(links, id)
    ensures id in links ==> MarkUsed(links, id)[id].used
    ensures id !in links ==> MarkUsed(links, id) == links
  {
  }

  function Ids(s: seq<Link>): set<string>
  {
    set i | 0 <= i < |s| :: s[i].id
  }

  predicate DistinctIds(s: seq<Link>)
  {
    forall i, j :: 0 <= i < j < |s| ==> s[i].id != s[j].id
  }

  /** Inserting a link with a new id keeps the ids distinct and adds exactly that id. */
  lemma InsertLink(x: Link, s: seq<Link>)
    requires DistinctIds(s) && x.id !in Ids(s)
    ensures DistinctIds(InsertDesc(x, s, CreatedAt))
    ensures Ids(InsertDesc(x, s, CreatedAt)) == Ids(s) + {x.id}
    ensures forall i :: 0 <= i < |s| + 1 ==> InsertDesc(x, s, CreatedAt)[i] == x || InsertDesc(x, s, CreatedAt)[i] in s
  {
    InsertLinkAt(x, s, InsertPos(x, s, CreatedAt));
  }

  lemma InsertLinkAt(x: Link, s: seq<Link>, p: nat)
    requires p <= |s| && DistinctIds(s) && x.id !in Ids(s)
    ensures DistinctIds(s[..p] + [x] + s[p..])
    ensures Ids(s[..p] + [x] + s[p..]) == Ids(s) + {x.id}
    ensures forall i :: 0 <= i < |s| + 1 ==> (s[..p] + [x] + s[p..])[i] == x || (s[..p] + [x] + s[p..])[i] in s
  {
    var r := s[..p] + [x] + s[p..];
    assert forall i :: 0 <= i < p ==> r[i] == s[i];
    assert r[p] == x;
    assert forall i :: p < i < |r| ==> r[i] == s[i - 1];
    forall k | k in Ids(r) ensures k in Ids(s) + {x.id} {
      var i :| 0 <= i < |r| && r[i].id == k;
      if i < p { assert s[i].id == k; } else if i > p { assert s[i - 1].id == k; }
    }
    forall k | k in Ids(s) ensures k in Ids(r) {
      var i :| 0 <= i < |s| && s[i].id == k;
      if i < p { assert r[i].id == k; } else { assert r[i + 1].id == k; }
    }
    assert r[p].id in Ids(r);
    forall i, j | 0 <= i < j < |r| ensures r[i].id != r[j].id {
      if i == p {
        assert r[j].id in Ids(s);
      } else if j == p {
        assert r[i].id in Ids(s);
      }
    }
  }

  /** The loop state of ListLinks: `acc` holds, sorted, the links whose ids have left `remaining`. */
  ghost predicate ListedSoFar(links: map<string, LinkRow>, remaining: set<string>, acc: seq<Link>)
  {
    && remaining <= links.Keys
    && SortedDesc(acc, CreatedAt)
    && DistinctIds(acc)
    && Ids(acc) == links.Keys - remaining
    && |acc| == |links.Keys - remaining|
    && forall l :: l in acc ==> Listed(links, l)
  }

  /** `l` is the mapped form of the stored row with its id. */
  predicate Listed(links: map<string, LinkRow>, l: Link)
  {
    l.id in links && l == MapLinkRow(links[l.id])
  }

  lemma ListStep(links: map<string, LinkRow>, remaining: set<string>, acc: seq<Link>, k: string)
    requires KeyedById(links) && ListedSoFar(links, remaining, acc) && k in remaining
    ensures ListedSoFar(links, remaining - {k}, InsertDesc(MapLinkRow(links[k]), acc, CreatedAt))
  {
    var x := MapLinkRow(links[k]);
    InsertLink(x, acc);
    var r := InsertDesc(x, acc, CreatedAt);
    assert links.Keys - (remaining - {k}) == (links.Keys - remaining) + {k};
    forall l | l in r ensures Listed(links, l) {
      assert l in multiset(r);
    }
  }

  /** The two tables. */
  class Store {
    var links: map<string, LinkRow>
    var feedback: seq<FeedbackRow>

    ghost predicate Valid()
      reads this
    {
      KeyedById(links) && DistinctFeedbackIds(feedback)
    }

    constructor ()
      ensures Valid() && links == map[] && feedback == []
    {
      links := map[];
      feedback := [];
    }

    /** `POST /feedback-links`: validates six fields, inserts one unused row, echoes the
        concern as `concernText`. An id already in the table violates the primary key. */
    method CreateLink(body: CreateLinkBody, id: string, now: int, fails: bool) returns (res: Response<CreatedLink>)
      requires Valid()
      modifies this
      ensures Valid() && feedback == old(feedback)
      ensures !LinkBodyComplete(body) ==> res == BadRequest(MissingFields) && links == old(links)
      ensures LinkBodyComplete(body) && (fails || id in old(links)) ==> res == DatabaseError && links == old(links)
      ensures LinkBodyComplete(body) && !fails && id !in old(links) ==>
        && links == old(links)[id := NewLinkRow(body, id, now)]
        && res == Ok(CreatedLink(id, body.feedbackUrl.value, body.qrCodeUrl.value, body.concern.value, now))
    {
      if !LinkBodyComplete(body) {
        return BadRequest(MissingFields);
      }
      if fails || id in links {
        return DatabaseError;
      }
      links := links[id := NewLinkRow(body, id, now)];
      res := Ok(CreatedLink(id, body.feedbackUrl.value, body.qrCodeUrl.value, body.concern.value, now));
    }

    /** `GET /feedback-links`: every stored link once, mapped, newest first. */
    method ListLinks(fails: bool) returns (res: Response<seq<Link>>)
      requires Valid()
      ensures fails <==> res == DatabaseError
      ensures !fails ==> res.Ok?
      ensures res.Ok? ==>
        && SortedDesc(res.data, CreatedAt)
        && |res.data| == |links|
        && DistinctIds(res.data)
        && Ids(res.data) == links.Keys
        && forall i :: 0 <= i < |res.data| ==> res.data[i].id in links && res.data[i] == MapLinkRow(links[res.data[i].id])
    {
      if fails {
        return DatabaseError;
      }
      var remaining := links.Keys;
      var acc: seq<Link> := [];
      while remaining != {}
        invariant ListedSoFar(links, remaining, acc)
        decreases |remaining|
      {
        var k :| k in remaining;
        ListStep(links, remaining, acc, k);
        acc := InsertDesc(MapLinkRow(links[k]), acc, CreatedAt);
        remaining := remaining - {k};
      }
      assert links.Keys - remaining == links.Keys;
      forall i | 0 <= i < |acc| ensures acc[i].id in links && acc[i] == MapLinkRow(links[acc[i].id]) {
        assert acc[i] in acc;
      }
      res := Ok(acc);
    }

    /** `GET /feedback-links/:id`. */
    method GetLink(id: string, fails: bool) returns (res: Response<Link>)
      requires Valid()
      ensures fails <==> res == DatabaseError
      ensures !fails ==> (res.Ok? <==> id in links)
      ensures res.Ok? ==> res.data.id == id && res.data == MapLinkRow(links[id])
      ensures !fails && id !in links ==> res == NotFound(NotFoundError)
    {
      if fails {
        return DatabaseError;
      }
      if id !in links {
        return NotFound(NotFoundError);
      }
      res := Ok(MapLinkRow(links[id]));
    }

    /** `POST /feedback`: validates rating and refId, inserts the row, then marks the link
        used. The two queries are separate: when the second fails, the row stays and
        the link stays unused. */
    method SubmitFeedback(body: FeedbackBody, id: string, now: int, fault: SubmitFault) returns (res: Response<()>)
      requires Valid()
      modifies this
      ensures Valid()
      ensures !FeedbackBodyComplete(body) ==>
        res == BadRequest(MissingFeedbackFields) && links == old(links) && feedback == old(feedback)
      ensures FeedbackBodyComplete(body) && (fault == InsertFails || FeedbackIdTaken(old(feedback), id)) ==>
        res == DatabaseError && links == old(links) && feedback == old(feedback)
      ensures FeedbackBodyComplete(body) && fault != InsertFails && !FeedbackIdTaken(old(feedback), id) ==>
        && feedback == old(feedback) + [NewFeedbackRow(body, id, now)]
        && (fault == UpdateFails ==> res == DatabaseError && links == old(links))
        && (fault == NoFault ==> res == Ok(()) && links == MarkUsed(old(links), body.refId.value))
    {
      if !FeedbackBodyComplete(body) {
        return BadRequest(MissingFeedbackFields);
      }
      if fault == InsertFails || FeedbackIdTaken(feedback, id) {
        return DatabaseError;
      }
      feedback := feedback + [NewFeedbackRow(body, id, now)];
      if fault == UpdateFails {
        return DatabaseError;
      }
      links := MarkUsed(links, body.refId.value);
      res := Ok(());
    }

    /** `GET /feedback`: every row, newest first, unmapped. */
    method ListFeedback(fails: bool) returns (res: Response<seq<FeedbackRow>>)
      requires Valid()
      ensures fails <==> res == DatabaseError
      ensures !fails ==> res.Ok?
      ensures res.Ok? ==> multiset(res.data) == multiset(feedback) && SortedDesc(res.data, Timestamp)
    {
      if fails {
        return DatabaseError;
      }
      res := Ok(SortDesc(feedback, Timestamp));
    }
  }

  /** The end-to-end flow: create a link, submit feedback for it, read it back as used. */
  method CreateSubmitFetch(now: int)
  {
    var store := new Store();
    var created := store.CreateLink(
      CreateLinkBody(Some("K-1"), Some("Rechnung"), Some("Max"), Some("Mustermann"),
                     Some("https://feedback.example/?ref=l1"), Some("https://qr.example/l1")),
      "l1", now, false);
    assert created.Ok? && created.data.id == "l1" && created.Status() == 200;
    var submitted := store.SubmitFeedback(
      FeedbackBody(Some(5), None, None, None, None, Some("l1")), "f1", now + 1, NoFault);
    assert submitted == Ok(());
    var fetched := store.GetLink("l1", false);
    assert fetched.Ok? && fetched.data.used;
    var rejected := store.SubmitFeedback(
      FeedbackBody(Some(0), Some("great"), None, None, None, Some("l1")), "f2", now + 2, NoFault);
    assert rejected.Status() == 400 && |store.feedback| == 1;
  }
}
