/** The admin dashboard's derived data: the three filters of `filteredFeedback`, the rating
    distribution, the "Mit Kommentar" count and the CSV export. Timestamps are milliseconds;
    the local calendar day and the German date format are parameters, since they depend on
    the browser's time zone. */
module Dashboard {
  import opened Seqs
  import opened Text

  datatype FeedbackItem = FeedbackItem(id: int, rating: int, comment: string, timestamp: int, customer: string)

  const DayMs := 24 * 60 * 60 * 1000

  /** The search term occurs, ignoring case, in the comment or in the customer. */
  predicate MatchesSearch(item: FeedbackItem, term: string)
  {
    Includes(ToLower(item.comment), ToLower(term)) || Includes(ToLower(item.customer), ToLower(term))
  }

  predicate MatchesRating(item: FeedbackItem, filter: string)
  {
    filter == "all" ||
    (filter == "low" && item.rating <= 2) ||
    (filter == "medium" && item.rating == 3) ||
    (filter == "high" && item.rating >= 4) ||
    IntToString(item.rating) == filter
  }

  /** `sameDay(t, now)` stands for `new Date(t).toDateString() === now.toDateString()`. */
  predicate MatchesDate(item: FeedbackItem, filter: string, now: int, sameDay: (int, int) -> bool)
  {
    filter == "all" ||
    (filter == "today" && sameDay(item.timestamp, now)) ||
    (filter == "week" && now - item.timestamp <= 7 * DayMs) ||
    (filter == "month" && now - item.timestamp <= 30 * DayMs)
  }

  /** The dashboard's filter settings, and the clock reading the date filter compares with. */
  datatype Filters = Filters(searchTerm: string, ratingFilter: string, dateFilter: string, now: int, sameDay: (int, int) -> bool)

  predicate Keep(filters: Filters, item: FeedbackItem)
  {
    MatchesSearch(item, filters.searchTerm) &&
    MatchesRating(item, filters.ratingFilter) &&
    MatchesDate(item, filters.dateFilter, filters.now, filters.sameDay)
  }

  /** `filteredFeedback`. */
  function FilteredFeedback(feedback: seq<FeedbackItem>, filters: Filters): seq<FeedbackItem>
  {
    Filter(feedback, item => Keep(filters, item))
  }

  /** The filtered list is an order-preserving subsequence of the feedback; an item is in it
      exactly when it is in the feedback and passes all three filters. */
  lemma FilteredFeedbackSpec(feedback: seq<FeedbackItem>, filters: Filters)
    ensures IsSubsequence(FilteredFeedback(feedback, filters), feedback)
    ensures forall item :: item in FilteredFeedback(feedback, filters) <==>
      item in feedback && MatchesSearch(item, filters.searchTerm) &&
      MatchesRating(item, filters.ratingFilter) &&
      MatchesDate(item, filters.dateFilter, filters.now, filters.sameDay)
  {
    FilterIsSubsequence(feedback, item => Keep(filters, item));
  }

  /** An empty search term keeps every item. */
  lemma EmptySearchKeepsAll(item: FeedbackItem)
    ensures MatchesSearch(item, "")
  {
    IncludesEmpty(ToLower(item.comment));
  }

  /** The search is a case-insensitive substring test on comment and customer. */
  lemma SearchIsSubstring(item: FeedbackItem, term: string)
    ensures MatchesSearch(item, term) <==>
      (exists k :: OccursAt(ToLower(item.comment), ToLower(term), k)) ||
      (exists k :: OccursAt(ToLower(item.customer), ToLower(term), k))
  {
  }

  /** Both sides are lower-cased, so the case of the search term does not matter. */
  lemma SearchIgnoresTermCase(item: FeedbackItem, term: string)
    ensures MatchesSearch(item, ToLower(term)) == MatchesSearch(item, term)
  {
    ToLowerIdempotent(term);
  }

  /** A rating's decimal form is none of the filter keywords. */
  lemma RatingStringNotKeyword(r: int)
    ensures IntToString(r) != "all" && IntToString(r) != "low"
    ensures IntToString(r) != "medium" && IntToString(r) != "high"
  {
    var s := IntToString(r);
    assert IsDigit(s[0]) || s[0] == '-';
  }

  lemma RatingFilterKeywords(item: FeedbackItem)
    ensures MatchesRating(item, "all")
    ensures MatchesRating(item, "low") <==> item.rating <= 2
    ensures MatchesRating(item, "medium") <==> item.rating == 3
    ensures MatchesRating(item, "high") <==> item.rating >= 4
  {
    RatingStringNotKeyword(item.rating);
  }

  /** A numeric filter string keeps exactly the items with that rating. */
  lemma RatingFilterNumeric(item: FeedbackItem, n: int)
    ensures MatchesRating(item, IntToString(n)) <==> item.rating == n
  {
    RatingStringNotKeyword(n);
    IntToStringInjective(item.rating, n);
  }

  lemma DateFilterWindows(item: FeedbackItem, filter: string, now: int, sameDay: (int, int) -> bool)
    ensures MatchesDate(item, "all", now, sameDay)
    ensures MatchesDate(item, "today", now, sameDay) <==> sameDay(item.timestamp, now)
    ensures MatchesDate(item, "week", now, sameDay) <==> now - item.timestamp <= 604800000
    ensures MatchesDate(item, "month", now, sameDay) <==> now - item.timestamp <= 2592000000
    ensures filter !in {"all", "today", "week", "month"} ==> !MatchesDate(item, filter, now, sameDay)
  {
  }

  /** A bar of the distribution chart. */
  datatype Bucket = Bucket(rating: string, count: nat)

  /** `${rating} Stern${rating > 1 ? 'e' : ''}`. */
  function StarLabel(n: int): string
  {
    IntToString(n) + " Stern" + (if n > 1 then "e" else "")
  }

  function CountRating(feedback: seq<FeedbackItem>, n: int): nat
  {
    Count(feedback, (item: FeedbackItem) => item.rating == n)
  }

  /** `stats.distribution`: one bucket per rating 1..5. */
  function Distribution(feedback: seq<FeedbackItem>): (r: seq<Bucket>)
    ensures |r| == 5
  {
    seq(5, i requires 0 <= i < 5 => Bucket(StarLabel(i + 1), CountRating(feedback, i + 1)))
  }

  function Sum(buckets: seq<Bucket>): nat
  {
    if buckets == [] then 0 else buckets[0].count + Sum(buckets[1..])
  }

  predicate InRange(item: FeedbackItem)
  {
    1 <= item.rating <= 5
  }

  /** Bucket `i` is labelled "1 Stern", "2 Sterne", … "5 Sterne" and counts the items rated `i + 1`. */
  lemma DistributionSpec(feedback: seq<FeedbackItem>)
    ensures Distribution(feedback)[0].rating == "1 Stern"
    ensures forall i :: 1 <= i < 5 ==> Distribution(feedback)[i].rating == [('1' as int + i) as char] + " Sterne"
    ensures forall i :: 0 <= i < 5 ==> Distribution(feedback)[i].count == CountRating(feedback, i + 1)
  {
    StarLabels();
  }

  /** The chart labels: "1 Stern", then the digit and " Sterne". */
  lemma StarLabels()
    ensures StarLabel(1) == "1 Stern"
    ensures forall n :: 2 <= n <= 5 ==> StarLabel(n) == [('0' as int + n) as char] + " Sterne"
  {
    assert IntToString(1) == [DigitChar(1)];
    forall n | 2 <= n <= 5 ensures StarLabel(n) == [('0' as int + n) as char] + " Sterne" {
      assert IntToString(n) == [DigitChar(n)];
    }
  }

  /** The bucket counts add up to the number of items rated 1 to 5, at most all of them. */
  lemma DistributionTotal(feedback: seq<FeedbackItem>)
    ensures Sum(Distribution(feedback)) == Count(feedback, InRange) <= |feedback|
  {
    var d := Distribution(feedback);
    SumOfFive(d);
    RatingCountsSum(feedback);
    CountMonotone(feedback, InRange, _ => true);
    FilterKeepsAll(feedback, (_: FeedbackItem) => true);
  }

  lemma SumOfFive(b: seq<Bucket>)
    requires |b| == 5
    ensures Sum(b) == b[0].count + b[1].count + b[2].count + b[3].count + b[4].count
  {
    var b1 := b[1..];
    var b2 := b1[1..];
    var b3 := b2[1..];
    var b4 := b3[1..];
    assert b4[1..] == [];
    assert Sum(b4) == b[4].count;
    assert Sum(b3) == b[3].count + Sum(b4);
    assert Sum(b2) == b[2].count + Sum(b3);
    assert Sum(b1) == b[1].count + Sum(b2);
  }

  lemma {:induction false} RatingCountsSum(feedback: seq<FeedbackItem>)
    ensures CountRating(feedback, 1) + CountRating(feedback, 2) + CountRating(feedback, 3) +
      CountRating(feedback, 4) + CountRating(feedback, 5) == Count(feedback, InRange)
  {
    if feedback != [] {
      RatingCountsSum(feedback[1..]);
      CountCons(feedback, InRange);
      RatingCountCons(feedback, 1);
      RatingCountCons(feedback, 2);
      RatingCountCons(feedback, 3);
      RatingCountCons(feedback, 4);
      RatingCountCons(feedback, 5);
    }
  }

  lemma RatingCountCons(feedback: seq<FeedbackItem>, n: int)
    requires feedback != []
    ensures CountRating(feedback, n) == (if feedback[0].rating == n then 1 else 0) + CountRating(feedback[1..], n)
  {
    CountCons(feedback, (item: FeedbackItem) => item.rating == n);
  }

  predicate HasComment(item: FeedbackItem)
  {
    !IsBlank(item.comment)
  }

  predicate NoComment(item: FeedbackItem)
  {
    IsBlank(item.comment)
  }

  /** The "Mit Kommentar" figure: `feedback.filter(item => item.comment.trim()).length`. */
  function CommentCount(feedback: seq<FeedbackItem>): nat
  {
    Count(feedback, HasComment)
  }

  /** An item has a comment when its comment has a character other than white space. */
  lemma HasCommentSpec(item: FeedbackItem)
    ensures HasComment(item) <==> !AllWhiteSpace(item.comment)
  {
    BlankIffAllWhiteSpace(item.comment);
  }

  /** The items with a comment and those without one make up all the feedback; the count is
      the total exactly when every item has a comment. */
  lemma CommentCountSpec(feedback: seq<FeedbackItem>)
    ensures CommentCount(feedback) + Count(feedback, NoComment) == |feedback|
    ensures CommentCount(feedback) == |feedback| <==> forall i :: 0 <= i < |feedback| ==> HasComment(feedback[i])
  {
    CountPartition(feedback, HasComment, NoComment);
    FilterKeepsAll(feedback, HasComment);
  }

  // CSV export

  const HeaderCells: seq<string> := ["Datum", "Kunde", "Bewertung", "Kommentar"]
  /** The header row, `headers.join(',')`. */
  const CsvHeader := Join(HeaderCells, ",")

  /** `s.replace(/"/g, '""')`. */
  function DoubleQuotes(s: string): string
  {
    if s == [] then ""
    else (if s[0] == '"' then "\"\"" else [s[0]]) + DoubleQuotes(s[1..])
  }

  /** The comment cell: the comment with its quotes doubled, between quotes. */
  function QuoteCell(s: string): string
  {
    "\"" + DoubleQuotes(s) + "\""
  }

  /** Reading a quoted cell's content back, turning each `""` into `"`. */
  function UndoubleQuotes(t: string): string
  {
    if |t| >= 2 && t[0] == '"' && t[1] == '"' then "\"" + UndoubleQuotes(t[2..])
    else if t == [] then ""
    else [t[0]] + UndoubleQuotes(t[1..])
  }

  function UnquoteCell(t: string): string
  {
    if |t| >= 2 && t[0] == '"' && t[|t| - 1] == '"' then UndoubleQuotes(t[1..|t| - 1]) else t
  }

  /** Inside the doubled text every quote has a partner: quotes come in adjacent pairs. */
  predicate QuotesPaired(t: string)
  {
    if t == [] then true
    else if t[0] == '"' then |t| >= 2 && t[1] == '"' && QuotesPaired(t[2..])
    else QuotesPaired(t[1..])
  }

  lemma {:induction false} DoubleQuotesSpec(s: string)
    ensures UndoubleQuotes(DoubleQuotes(s)) == s
    ensures QuotesPaired(DoubleQuotes(s))
  {
    if s != [] {
      DoubleQuotesSpec(s[1..]);
      var t := DoubleQuotes(s);
      if s[0] == '"' {
        assert t[2..] == DoubleQuotes(s[1..]);
      } else {
        assert t[1..] == DoubleQuotes(s[1..]);
      }
      assert [s[0]] + s[1..] == s;
    }
  }

  /** The comment cell follows RFC 4180 (section 2, items 6 and 7) and reading it back gives
      the comment unchanged. */
  lemma QuoteCellRoundTrip(comment: string)
    ensures QuotesPaired(QuoteCell(comment)[1..|QuoteCell(comment)| - 1])
    ensures UnquoteCell(QuoteCell(comment)) == comment
  {
    DoubleQuotesSpec(comment);
    var q := QuoteCell(comment);
    assert q[1..|q| - 1] == DoubleQuotes(comment);
  }

  /** `dateCell(t)` stands for `new Date(t).toLocaleDateString('de-DE')`. */
  function CsvRow(item: FeedbackItem, dateCell: int -> string): string
  {
    Join([dateCell(item.timestamp), item.customer, IntToString(item.rating), QuoteCell(item.comment)], ",")
  }

  function CsvRows(items: seq<FeedbackItem>, dateCell: int -> string): (rows: seq<string>)
    ensures |rows| == |items|
  {
    seq(|items|, i requires 0 <= i < |items| => CsvRow(items[i], dateCell))
  }

  /** `exportToCSV`'s content: the header row, then one row per filtered item, joined by `\n`. */
  function ExportCsv(filtered: seq<FeedbackItem>, dateCell: int -> string): string
  {
    Join([CsvHeader] + CsvRows(filtered, dateCell), "\n")
  }

  lemma {:induction false} JoinAppend(parts: seq<string>, last: string, sep: string)
    requires |parts| >= 1
    ensures Join(parts + [last], sep) == Join(parts, sep) + sep + last
  {
    if |parts| == 1 {
      assert (parts + [last])[1..] == [last];
    } else {
      assert (parts + [last])[1..] == parts[1..] + [last];
      JoinAppend(parts[1..], last, sep);
    }
  }

  lemma CsvHeaderText()
    ensures CsvHeader == "Datum,Kunde,Bewertung,Kommentar"
  {
    JoinFour("Datum", "Kunde", "Bewertung", "Kommentar", ",");
  }

  /** The export starts with the header row; each further item adds exactly one row at the end. */
  lemma ExportCsvStructure(filtered: seq<FeedbackItem>, item: FeedbackItem, dateCell: int -> string)
    ensures ExportCsv([], dateCell) == CsvHeader
    ensures StartsWith(ExportCsv(filtered, dateCell), CsvHeader)
    ensures ExportCsv(filtered + [item], dateCell) == ExportCsv(filtered, dateCell) + "\n" + CsvRow(item, dateCell)
  {
    assert CsvRows(filtered + [item], dateCell) == CsvRows(filtered, dateCell) + [CsvRow(item, dateCell)];
    assert [CsvHeader] + CsvRows(filtered + [item], dateCell) == ([CsvHeader] + CsvRows(filtered, dateCell)) + [CsvRow(item, dateCell)];
    JoinAppend([CsvHeader] + CsvRows(filtered, dateCell), CsvRow(item, dateCell), "\n");
    JoinStartsWith([CsvHeader] + CsvRows(filtered, dateCell), "\n");
  }

  lemma JoinStartsWith(parts: seq<string>, sep: string)
    requires |parts| >= 1
    ensures StartsWith(Join(parts, sep), parts[0])
  {
    var j := Join(parts, sep);
    if |parts| > 1 {
      assert j == parts[0] + (sep + Join(parts[1..], sep));
    }
    assert j[..|parts[0]|] == parts[0];
  }

  /** When no cell holds a line break, splitting the export at `\n` gives back the header and
      the rows, one per filtered item in filtered order. */
  lemma ExportCsvLines(filtered: seq<FeedbackItem>, dateCell: int -> string)
    requires forall i :: 0 <= i < |filtered| ==> '\n' !in CsvRow(filtered[i], dateCell)
    ensures Split(ExportCsv(filtered, dateCell), '\n') == [CsvHeader] + CsvRows(filtered, dateCell)
  {
    var lines := [CsvHeader] + CsvRows(filtered, dateCell);
    forall i | 0 <= i < |lines| ensures '\n' !in lines[i] {
      if i > 0 {
        assert lines[i] == CsvRows(filtered, dateCell)[i - 1] == CsvRow(filtered[i - 1], dateCell);
      }
    }
    assert "\n" == ['\n'];
    SplitJoin(lines, '\n');
  }
}
