/** The product feed of the integrations page
    (src/components/admin/IntegrationsPage.tsx:10-44): a header line and one
    comma-separated row per product, joined by line feeds. Free text goes
    through `escapeCSV`, which quotes a value holding a comma, a quote or a
    line feed and doubles its quotes, as rules 6 and 7 of section 2 of
    RFC 4180 describe (a carriage return alone does not cause quoting). */
module CsvFeed {
  import opened Wrappers
  import opened Text
  import opened Catalog

  const HeaderFields: seq<string> := [
    "id", "title", "description", "availability", "condition", "price",
    "link", "image_link", "brand", "google_product_category"]

  const DefaultDescription: string := "Una fragancia exquisita de ScentMart."
  const DemoLink: string := "https://scentmart-demo.com/product/"
  /** The Google product category, level by level. */
  const CategoryPath: seq<string> := ["Health & Beauty", "Personal Care", "Cosmetics", "Perfume & Cologne"]
  const ProductCategory: string := Join(CategoryPath, " > ")

  /** The header line (src/components/admin/IntegrationsPage.tsx:11-14). */
  function FeedHeader(): string {
    Join(HeaderFields, ",")
  }

  /** A value that `escapeCSV` has to quote. */
  predicate NeedsQuotes(s: string) {
    ',' in s || '"' in s || '\n' in s
  }

  /** `str.replace(/"/g, '""')`: every quote doubled. */
  function DoubleQuotes(s: string): (r: string)
    ensures |r| >= |s|
  {
    if |s| == 0 then ""
    else (if s[0] == '"' then "\"\"" else [s[0]]) + DoubleQuotes(s[1..])
  }

  /** escapeCSV (src/components/admin/IntegrationsPage.tsx:18-25); `None`
      is an undefined value. No caller passes a number, so the values are
      texts. */
  function Escape(v: Option<string>): string {
    match v
    case None => ""
    case Some(s) => if NeedsQuotes(s) then "\"" + DoubleQuotes(s) + "\"" else s
  }

  /** The reading a CSV consumer applies to one field: a quoted field loses
      its quotes and each doubled quote inside becomes one. */
  function Unescape(t: string): string {
    if |t| >= 2 && t[0] == '"' && t[|t| - 1] == '"' then Undouble(t[1..|t| - 1]) else t
  }

  function Undouble(t: string): string {
    if |t| == 0 then ""
    else if |t| >= 2 && t[0] == '"' && t[1] == '"' then "\"" + Undouble(t[2..])
    else [t[0]] + Undouble(t[1..])
  }

  /** Doubling and undoubling the quotes are inverse. */
  lemma {:induction false} UndoubleDouble(s: string)
    ensures Undouble(DoubleQuotes(s)) == s
  {
    if |s| > 0 {
      UndoubleDouble(s[1..]);
      var t := DoubleQuotes(s);
      if s[0] == '"' {
        assert t == "\"\"" + DoubleQuotes(s[1..]);
        assert t[2..] == DoubleQuotes(s[1..]);
      } else {
        assert t == [s[0]] + DoubleQuotes(s[1..]);
        assert t[1..] == DoubleQuotes(s[1..]);
      }
      assert s == [s[0]] + s[1..];
    }
  }

  /** Doubling quotes keeps every other character and makes the number of
      quotes even. */
  lemma {:induction false} DoubleQuotesChars(s: string)
    ensures forall c :: c != '"' ==> (c in DoubleQuotes(s) <==> c in s)
    ensures multiset(DoubleQuotes(s))['"'] == 2 * multiset(s)['"']
  {
    if |s| > 0 {
      DoubleQuotesChars(s[1..]);
      var head := if s[0] == '"' then "\"\"" else [s[0]];
      assert DoubleQuotes(s) == head + DoubleQuotes(s[1..]);
      assert s == [s[0]] + s[1..];
      assert multiset(s) == multiset([s[0]]) + multiset(s[1..]);
      assert multiset(DoubleQuotes(s)) == multiset(head) + multiset(DoubleQuotes(s[1..]));
    }
  }

  /** Any text survives escaping: the consumer reads back exactly the value
      (section 2, rules 6 and 7 of RFC 4180). */
  lemma EscapeRoundTrip(s: string)
    ensures Unescape(Escape(Some(s))) == s
  {
    if NeedsQuotes(s) {
      var t := "\"" + DoubleQuotes(s) + "\"";
      assert t[1..|t| - 1] == DoubleQuotes(s);
      UndoubleDouble(s);
    } else if |s| > 0 {
      assert s[0] in s;
    }
  }

  /** A value that needs no quotes is written as it is; any other one is
      wrapped in quotes and holds twice its own quotes and two more, so
      every quote inside it is paired. */
  lemma EscapeShape(s: string)
    ensures !NeedsQuotes(s) ==> Escape(Some(s)) == s
    ensures NeedsQuotes(s) ==> var r := Escape(Some(s));
      |r| >= 2 && r[0] == '"' && r[|r| - 1] == '"' && multiset(r)['"'] == 2 * multiset(s)['"'] + 2
  {
    if NeedsQuotes(s) {
      DoubleQuotesChars(s);
      var q := "\"";
      var d := DoubleQuotes(s);
      assert multiset(q + d + q) == multiset(q) + multiset(d) + multiset(q);
    }
  }

  /** Escaping adds no character but quotes: a comma or a line feed is in
      the output only where it was in the value. */
  lemma EscapeChars(s: string, c: char)
    requires c != '"'
    ensures c in Escape(Some(s)) <==> c in s
  {
    if NeedsQuotes(s) {
      DoubleQuotesChars(s);
      var r := "\"" + DoubleQuotes(s) + "\"";
      assert c in r <==> c in DoubleQuotes(s);
    }
  }

  /** `p.sku || p.id`: the SKU unless it is missing or empty, else the id. */
  function IdColumn(p: Perfume): string {
    if p.sku.Some? && p.sku.value != "" then p.sku.value else IntToString(p.id)
  }

  /** `p.details?.description || default`. */
  function DescriptionText(p: Perfume): string {
    if p.details.Some? && p.details.value.description != "" then p.details.value.description
    else DefaultDescription
  }

  /** `p.officialUrl || demo link + id`. */
  function LinkColumn(p: Perfume): string {
    if p.officialUrl.Some? && p.officialUrl.value != "" then p.officialUrl.value
    else DemoLink + IntToString(p.id)
  }

  function AvailabilityColumn(p: Perfume): string {
    if p.stock > 0 then "in stock" else "out of stock"
  }

  /** The ten values of a product's row, in header order
      (src/components/admin/IntegrationsPage.tsx:27-40). */
  function Fields(p: Perfume): (r: seq<string>)
    ensures |r| == |HeaderFields|
  {
    [IdColumn(p), Escape(Some(p.name)), Escape(Some(DescriptionText(p))), AvailabilityColumn(p),
     "new", IntToString(p.price) + " COP", LinkColumn(p), p.imageUrl, Escape(Some(p.brand)),
     ProductCategory]
  }

  function FeedRow(p: Perfume): string {
    Join(Fields(p), ",")
  }

  function FeedRows(ps: seq<Perfume>): (r: seq<string>)
    ensures |r| == |ps| && forall i :: 0 <= i < |ps| ==> r[i] == FeedRow(ps[i])
  {
    seq(|ps|, i requires 0 <= i < |ps| => FeedRow(ps[i]))
  }

  /** generateCSVFeed (src/components/admin/IntegrationsPage.tsx:10-44). */
  function Feed(ps: seq<Perfume>): string {
    Join([FeedHeader()] + FeedRows(ps), "\n")
  }

  /** An empty catalog gives the header alone. */
  lemma FeedEmpty()
    ensures Feed([]) == FeedHeader()
  {
    assert [FeedHeader()] + FeedRows([]) == [FeedHeader()];
  }

  /** One more product adds its row after a line feed, so the rows follow
      the products in input order. */
  lemma FeedSnoc(ps: seq<Perfume>, p: Perfume)
    ensures Feed(ps + [p]) == Feed(ps) + "\n" + FeedRow(p)
  {
    FeedRowsSnoc(ps, p);
    LinesSnoc(FeedHeader(), FeedRows(ps), FeedRow(p), "\n");
  }

  lemma FeedRowsSnoc(ps: seq<Perfume>, p: Perfume)
    ensures FeedRows(ps + [p]) == FeedRows(ps) + [FeedRow(p)]
  {
    assert forall i :: 0 <= i < |ps| ==> (ps + [p])[i] == ps[i];
  }

  /** A header line and rows, joined, with one more row. */
  lemma LinesSnoc(header: string, rows: seq<string>, row: string, sep: string)
    ensures Join([header] + (rows + [row]), sep) == Join([header] + rows, sep) + sep + row
  {
    assert [header] + (rows + [row]) == ([header] + rows) + [row];
    JoinSnoc([header] + rows, row, sep);
  }

  /** What each column holds: the availability follows the stock, the
      condition is always new, the price carries its currency, the id is the
      SKU only when one is given, the link is the official address when there
      is one, the image address goes in as it is, and only the title, the
      description (with its fallback text) and the brand are escaped. */
  lemma FieldsMeaning(p: Perfume)
    ensures Fields(p)[3] == "in stock" <==> p.stock > 0
    ensures Fields(p)[3] == "out of stock" <==> p.stock <= 0
    ensures Fields(p)[4] == "new" && Fields(p)[9] == ProductCategory
    ensures Fields(p)[5] == IntToString(p.price) + " COP"
    ensures Fields(p)[1] == Escape(Some(p.name)) && Fields(p)[8] == Escape(Some(p.brand))
    ensures (p.sku.None? || p.sku.value == "") ==> Fields(p)[0] == IntToString(p.id)
    ensures p.sku.Some? && p.sku.value != "" ==> Fields(p)[0] == p.sku.value
    ensures (p.officialUrl.None? || p.officialUrl.value == "") ==>
      Fields(p)[6] == DemoLink + IntToString(p.id)
    ensures p.officialUrl.Some? && p.officialUrl.value != "" ==> Fields(p)[6] == p.officialUrl.value
    ensures Fields(p)[7] == p.imageUrl
    ensures p.details.Some? && p.details.value.description != "" ==>
      Fields(p)[2] == Escape(Some(p.details.value.description))
    ensures (p.details.None? || p.details.value.description == "") ==>
      Fields(p)[2] == Escape(Some(DefaultDescription))
  {
    assert "in stock" != "out of stock";
  }

  /** With no comma in the SKU, the name, the description, the link, the
      image address or the brand, a consumer that splits the row at its
      commas gets back the ten columns. */
  lemma RowColumns(p: Perfume)
    requires ',' !in IdColumn(p) && ',' !in p.name && ',' !in DescriptionText(p)
    requires ',' !in LinkColumn(p) && ',' !in p.imageUrl && ',' !in p.brand
    ensures Split(FeedRow(p), ',') == Fields(p)
  {
    FieldsWithoutComma(p);
    SplitJoin(Fields(p), ',');
  }

  lemma FieldsWithoutComma(p: Perfume)
    requires ',' !in IdColumn(p) && ',' !in p.name && ',' !in DescriptionText(p)
    requires ',' !in LinkColumn(p) && ',' !in p.imageUrl && ',' !in p.brand
    ensures forall i :: 0 <= i < |Fields(p)| ==> ',' !in Fields(p)[i]
  {
    EscapeChars(p.name, ',');
    EscapeChars(DescriptionText(p), ',');
    EscapeChars(p.brand, ',');
    FixedColumnsWithoutComma(p);
    AllWithout(Fields(p), ',');
  }

  lemma AllWithout(xs: seq<string>, c: char)
    requires |xs| == 10
    requires c !in xs[0] && c !in xs[1] && c !in xs[2] && c !in xs[3] && c !in xs[4]
    requires c !in xs[5] && c !in xs[6] && c !in xs[7] && c !in xs[8] && c !in xs[9]
    ensures forall i :: 0 <= i < |xs| ==> c !in xs[i]
  {
  }

  /** The columns the catalog does not supply hold no comma. */
  lemma FixedColumnsWithoutComma(p: Perfume)
    ensures ',' !in AvailabilityColumn(p) && ',' !in "new" && ',' !in ProductCategory
    ensures ',' !in IntToString(p.price) + " COP"
  {
    assert forall i :: 0 <= i < |CategoryPath| ==> ',' !in CategoryPath[i];
    JoinWithout(CategoryPath, " > ", ',');
    ConcatWithout(IntToString(p.price), " COP", ',');
  }
}
