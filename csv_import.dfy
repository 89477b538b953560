/** The bulk import dialog (src/components/CSVImportModal.tsx): the text of
    a CSV file is cut into non-blank lines, the header line is checked
    against the template, each data line becomes a record keyed by the
    thirteen column names, and the validator sorts the records into new
    perfumes, skipped rows and failed rows.

    The regular expression that cuts a line into values is a parameter
    `tokenize`; `parseFloat` and `parseInt` are the parameters of `Env`,
    with `None` for NaN; `Date.now()` is `Env.now(index)`, the clock as row
    `index` is validated. */
module CsvImport {
  import opened Wrappers
  import opened Catalog
  import opened Seqs
  import opened Text

  // ---- the template --------------------------------------------------------

  /** The thirteen columns of the template, in order (src/components/CSVImportModal.tsx:17). */
  const HeaderNames: seq<string> := [
    "nombre_producto", "descripcion", "precio", "precio_descuento", "sku", "stock", "categoria",
    "genero", "url_imagen_1", "url_imagen_2", "notas_salida", "notas_corazon", "notas_fondo"]

  /** CSV_HEADERS: the column names joined by commas. */
  const CsvHeaders: string := Join(HeaderNames, ",")

  const EmptyFileMsg: string := "El archivo CSV está vacío o solo contiene la cabecera."
  const HeaderMismatchMsg: string :=
    "Las cabeceras del archivo CSV no coinciden con la plantilla. Por favor, descarga la plantilla y úsala como base."
  const WrongTypeMsg: string := "Por favor, sube un archivo con formato .csv"
  const ReadErrorMsg: string := "Error al leer el archivo."

  lemma HeaderNamesWithoutComma()
    ensures forall i :: 0 <= i < |HeaderNames| ==> ',' !in HeaderNames[i]
  {
  }

  lemma HeaderNamesDistinct()
    ensures NoDup(HeaderNames)
  {
  }

  /** `header.split(',')` on the template header gives back the thirteen names. */
  lemma SplitCsvHeaders()
    ensures Split(CsvHeaders, ',') == HeaderNames
  {
    HeaderNamesWithoutComma();
    SplitJoin(HeaderNames, ',');
  }

  // ---- lines -----------------------------------------------------------------

  /** Drops one `\r` at the end. */
  function DropCR(s: string): (r: string)
    ensures |s| > 0 && s[|s| - 1] == '\r' ==> r == s[..|s| - 1]
    ensures !(|s| > 0 && s[|s| - 1] == '\r') ==> r == s
  {
    if |s| > 0 && s[|s| - 1] == '\r' then s[..|s| - 1] else s
  }

  /** `text.split(/\r?\n/)`: the pieces between line feeds, each without the
      carriage return in front of its line feed; the last piece is followed
      by no line feed and keeps its carriage return. */
  function SplitLines(text: string): (r: seq<string>)
    ensures |r| == |Split(text, '\n')| >= 1
    ensures forall k :: 0 <= k < |r| ==> '\n' !in r[k]
  {
    var pieces := Split(text, '\n');
    seq(|pieces|, k requires 0 <= k < |pieces| => if k < |pieces| - 1 then DropCR(pieces[k]) else pieces[k])
  }

  predicate NonBlank(line: string) {
    Trim(line) != ""
  }

  /** The lines that `filter(line => line.trim() !== '')` keeps
      (src/components/CSVImportModal.tsx:55). */
  function NonBlankLines(text: string): (r: seq<string>)
    ensures forall k :: 0 <= k < |r| ==> !AllWhitespace(r[k])
    ensures forall l :: l in r <==> l in SplitLines(text) && !AllWhitespace(l)
    ensures Subseq(r, SplitLines(text))
    ensures forall l :: multiset(r)[l] == if AllWhitespace(l) then 0 else multiset(SplitLines(text))[l]
  {
    var lines := SplitLines(text);
    FilterMembers(lines, NonBlank);
    FilterSubseq(lines, NonBlank);
    FilterCount(lines, NonBlank);
    forall l ensures NonBlank(l) <==> !AllWhitespace(l) {
      TrimEmpty(l);
    }
    Filter(lines, NonBlank)
  }

  /** The line the header check reads is the first line of the file that is
      not blank. */
  lemma FirstNonBlankLine(text: string)
    requires |NonBlankLines(text)| > 0
    ensures var lines := SplitLines(text);
      exists k :: 0 <= k < |lines| && lines[k] == NonBlankLines(text)[0]
        && forall j :: 0 <= j < k ==> AllWhitespace(lines[j])
  {
    var lines := SplitLines(text);
    FilterFirst(lines, NonBlank);
    forall l ensures NonBlank(l) <==> !AllWhitespace(l) {
      TrimEmpty(l);
    }
  }

  // ---- rows ------------------------------------------------------------------

  /** A parsed row: column name to text. */
  type Row = map<string, string>

  /** `row[key]`, with a missing key read as the empty string: both are falsy
      and every use below treats them alike. */
  function Field(row: Row, key: string): string {
    if key in row then row[key] else ""
  }

  /** `.replace(/^"|"$/g, '')`: one `"` at the start and one at the end go,
      independently of each other. */
  function StripQuotes(s: string): string {
    var a := if |s| > 0 && s[0] == '"' then s[1..] else s;
    if |a| > 0 && a[|a| - 1] == '"' then a[..|a| - 1] else a
  }

  /** A value wrapped in quotes loses both, one without quotes is kept, and
      at most two characters go. */
  lemma StripQuotesSpec(s: string)
    ensures |s| >= 2 && s[0] == '"' && s[|s| - 1] == '"' ==> StripQuotes(s) == s[1..|s| - 1]
    ensures (|s| == 0 || s[0] != '"') && (|s| == 0 || s[|s| - 1] != '"') ==> StripQuotes(s) == s
    ensures |StripQuotes(s)| <= |s| && |s| - |StripQuotes(s)| <= 2
  {
  }

  /** A quoted value loses exactly its quotes. */
  lemma StripQuotesWrapped(v: string)
    ensures StripQuotes("\"" + v + "\"") == v
  {
    var s := "\"" + v + "\"";
    assert s[1..|s| - 1] == v;
  }

  /** The text stored for column `j`: `(values[j] || '').trim()` without its quotes. */
  function Cell(values: seq<string>, j: nat): string {
    StripQuotes(Trim(ValueAt(values, j)))
  }

  /** `values[j] || ''`: a column past the end of the line is empty. */
  function ValueAt(values: seq<string>, j: nat): string {
    if j < |values| then values[j] else ""
  }

  /** The record the inner loop has built after `n` columns
      (src/components/CSVImportModal.tsx:74-77). */
  function BuildRow(headers: seq<string>, cell: nat -> string, n: nat): Row
    requires n <= |headers|
  {
    if n == 0 then map[] else BuildRow(headers, cell, n - 1)[headers[n - 1] := cell(n - 1)]
  }

  /** The cells of one line, column by column. */
  function CellsOf(values: seq<string>): nat -> string {
    (j: nat) => Cell(values, j)
  }

  /** The record has a key for each of the first `n` column names and no other. */
  lemma {:induction false} BuildRowKeys(headers: seq<string>, cell: nat -> string, n: nat)
    requires n <= |headers|
    ensures forall j :: 0 <= j < n ==> headers[j] in BuildRow(headers, cell, n)
    ensures forall k :: k in BuildRow(headers, cell, n) ==> exists j :: 0 <= j < n && headers[j] == k
  {
    if n > 0 {
      BuildRowKeys(headers, cell, n - 1);
    }
  }

  /** With distinct column names every column holds its own cell. */
  lemma {:induction false} BuildRowAt(headers: seq<string>, cell: nat -> string, n: nat, j: nat)
    requires NoDup(headers) && j < n <= |headers|
    ensures headers[j] in BuildRow(headers, cell, n) && BuildRow(headers, cell, n)[headers[j]] == cell(j)
  {
    BuildRowKeys(headers, cell, n);
    if j < n - 1 {
      assert headers[j] != headers[n - 1];
      BuildRowAt(headers, cell, n - 1, j);
    }
  }

  /** The record of one data line. */
  function RowOf(line: string, headers: seq<string>, tokenize: string -> seq<string>): Row {
    BuildRow(headers, CellsOf(tokenize(line)), |headers|)
  }

  /** Each data row holds all thirteen columns; a value the tokenizer did
      not produce is empty, every other one is trimmed and unquoted. */
  lemma RowOfColumns(line: string, tokenize: string -> seq<string>, j: nat)
    requires j < |HeaderNames|
    ensures HeaderNames[j] in RowOf(line, HeaderNames, tokenize)
    ensures RowOf(line, HeaderNames, tokenize)[HeaderNames[j]] == Cell(tokenize(line), j)
    ensures j >= |tokenize(line)| ==> RowOf(line, HeaderNames, tokenize)[HeaderNames[j]] == ""
  {
    HeaderNamesDistinct();
    BuildRowAt(HeaderNames, CellsOf(tokenize(line)), |HeaderNames|, j);
    CellMissing(tokenize(line), j);
  }

  /** A row has no column but the thirteen. */
  lemma RowOfKeys(line: string, tokenize: string -> seq<string>)
    ensures forall k :: k in RowOf(line, HeaderNames, tokenize) ==> k in HeaderNames
  {
    BuildRowKeys(HeaderNames, CellsOf(tokenize(line)), |HeaderNames|);
  }

  lemma CellMissing(values: seq<string>, j: nat)
    ensures j >= |values| ==> Cell(values, j) == ""
  {
    if j >= |values| {
      TrimSpec(ValueAt(values, j));
    }
  }

  function Rows(lines: seq<string>, headers: seq<string>, tokenize: string -> seq<string>): (r: seq<Row>)
    ensures |r| == |lines| && forall k :: 0 <= k < |lines| ==> r[k] == RowOf(lines[k], headers, tokenize)
  {
    seq(|lines|, k requires 0 <= k < |lines| => RowOf(lines[k], headers, tokenize))
  }

  // ---- normalisation ---------------------------------------------------------

  /** `(row.genero || 'Unisex').trim().toLowerCase()` mapped to a gender
      (src/components/CSVImportModal.tsx:126-130). */
  function GenderOf(text: string): Gender {
    var v := Lower(Trim(if text == "" then "Unisex" else text));
    if v == "hombre" then Hombre
    else if v == "mujer" then Mujer
    else Unisex
  }

  /** `validOlfactoryFamilies.find(f => f.toLowerCase() === v)`: the first
      family, in catalog order, whose lowered name is `v`. */
  function FindFamily(fs: seq<Family>, v: string): (r: Option<Family>)
    ensures r.Some? ==> r.value in fs && Lower(FamilyName(r.value)) == v
    ensures r.None? ==> forall f :: f in fs ==> Lower(FamilyName(f)) != v
  {
    if |fs| == 0 then None
    else if Lower(FamilyName(fs[0])) == v then Some(fs[0])
    else FindFamily(fs[1..], v)
  }

  /** The family of `row.categoria`, with 'Aromático' when none matches
      (src/components/CSVImportModal.tsx:132-133). */
  function FamilyOf(text: string): (r: Family)
    ensures FindFamily(Families, Lower(Trim(text))).None? ==> r == Aromatico
    ensures r != Aromatico ==> Lower(FamilyName(r)) == Lower(Trim(text))
  {
    match FindFamily(Families, Lower(Trim(text)))
    case Some(f) => f
    case None => Aromatico
  }

  /** The lowered, trimmed gender names. */
  lemma LowerGenderName(g: Gender, t: string)
    requires t == GenderName(g)
    ensures Lower(Trim(t)) == match g case Hombre => "hombre" case Mujer => "mujer" case Unisex => "unisex"
  {
    TrimUnchanged(t);
    var u := Lower(t);
    assert u[0] == LowerChar(t[0]);
  }

  /** The gender name the importer writes back is read as that gender, and
      an empty text is Unisex. */
  lemma GenderRoundTrip(g: Gender, t: string)
    requires t == GenderName(g)
    ensures GenderOf(t) == g
  {
    LowerGenderName(g, t);
  }

  lemma GenderEmpty(t: string)
    requires t == ""
    ensures GenderOf(t) == Unisex
  {
    LowerGenderName(Unisex, "Unisex");
  }

  /** Two families never have the same lowered name. */
  lemma FamilyNamesDistinct(f: Family, g: Family)
    requires f != g
    ensures Lower(FamilyName(f)) != Lower(FamilyName(g))
  {
    LowerIndex(FamilyName(f), 0);
    LowerIndex(FamilyName(g), 0);
    LowerIndex(FamilyName(f), 1);
    LowerIndex(FamilyName(g), 1);
  }

  /** Every family's own name, in any mix of case the importer can lower,
      is read as that family. */
  lemma FamilyRoundTrip(f: Family)
    ensures FamilyOf(FamilyName(f)) == f
  {
    TrimUnchanged(FamilyName(f));
    assert f in Families;
    forall g | g != f ensures Lower(FamilyName(g)) != Lower(FamilyName(f)) {
      FamilyNamesDistinct(g, f);
    }
  }

  const NotesFallback: string := "Notas olfativas no especificadas."

  /** The notes line: each non-empty part behind its label, joined by
      ' | ', or the fallback text (src/components/CSVImportModal.tsx:148-152). */
  function Notes(top: string, heart: string, base: string): string {
    var parts := Filter([if top != "" then "Salida: " + top else "",
                         if heart != "" then "Corazón: " + heart else "",
                         if base != "" then "Fondo: " + base else ""], (x: string) => x != "");
    var joined := Join(parts, " | ");
    if joined == "" then NotesFallback else joined
  }

  lemma JoinHead(xs: seq<string>, sep: string)
    requires |xs| >= 1
    ensures |xs[0]| <= |Join(xs, sep)| && Join(xs, sep)[..|xs[0]|] == xs[0]
  {
    if |xs| > 1 {
      assert Join(xs, sep) == xs[0] + (sep + Join(xs[1..], sep));
    }
  }

  /** The three labelled parts that `filter(Boolean)` keeps. */
  lemma NotesParts(top: string, heart: string, base: string)
    ensures var a, b, c := (if top != "" then "Salida: " + top else ""),
                           (if heart != "" then "Corazón: " + heart else ""),
                           (if base != "" then "Fondo: " + base else "");
      Filter([a, b, c], (x: string) => x != "") ==
        (if a != "" then [a] else []) + (if b != "" then [b] else []) + (if c != "" then [c] else [])
  {
    var a, b, c := (if top != "" then "Salida: " + top else ""),
                   (if heart != "" then "Corazón: " + heart else ""),
                   (if base != "" then "Fondo: " + base else "");
    var p := (x: string) => x != "";
    assert [a, b, c] == [a] + [b] + [c];
    FilterAppend([a] + [b], [c], p);
    FilterAppend([a], [b], p);
    assert Filter([a], p) == (if a != "" then [a] else []);
    assert Filter([b], p) == (if b != "" then [b] else []);
    assert Filter([c], p) == (if c != "" then [c] else []);
  }

  /** The fallback appears exactly when all three note columns are empty. */
  lemma NotesFallbackIff(top: string, heart: string, base: string)
    ensures Notes(top, heart, base) == NotesFallback <==> top == "" && heart == "" && base == ""
  {
    var a, b, c := (if top != "" then "Salida: " + top else ""),
                   (if heart != "" then "Corazón: " + heart else ""),
                   (if base != "" then "Fondo: " + base else "");
    NotesParts(top, heart, base);
    var parts := Filter([a, b, c], (x: string) => x != "");
    assert Notes(top, heart, base) == if Join(parts, " | ") == "" then NotesFallback else Join(parts, " | ");
    if top != "" || heart != "" || base != "" {
      var first := if top != "" then a else if heart != "" then b else c;
      assert |parts| >= 1 && parts[0] == first;
      JoinHead(parts, " | ");
      var joined := Join(parts, " | ");
      assert joined[0] == first[0];
      assert first[0] in "SCF";
      assert NotesFallback[0] == 'N';
    } else {
      assert parts == [];
    }
  }

  /** With all three note columns given, the line lists them in order. */
  lemma NotesAllGiven(top: string, heart: string, base: string)
    requires top != "" && heart != "" && base != ""
    ensures Notes(top, heart, base) == ("Salida: " + top) + " | " + ("Corazón: " + heart) + " | " + ("Fondo: " + base)
  {
    var a, b, c := "Salida: " + top, "Corazón: " + heart, "Fondo: " + base;
    NotesParts(top, heart, base);
    assert Filter([a, b, c], (x: string) => x != "") == [a, b, c];
    JoinThree(a, b, c, " | ");
    assert |Join([a, b, c], " | ")| > 0;
  }

  // ---- validation ------------------------------------------------------------

  /** What the browser supplies: the clock as each row is validated, and the
      number parsers. */
  datatype Env = Env(now: nat -> int, parseFloat: string -> Option<int>, parseInt: string -> Option<int>)

  /** `x || fallback` on a parsed number: NaN and 0 are falsy. */
  function OrElse(x: Option<int>, fallback: int): int {
    if x.Some? && x.value != 0 then x.value else fallback
  }

  /** The perfume a valid row becomes (src/components/CSVImportModal.tsx:123-156).
      The second image column and the SKU are not stored. */
  function BuildPerfume(row: Row, index: nat, env: Env): (p: Perfume)
    ensures p.name == Field(row, "nombre_producto") && p.imageUrl == Field(row, "url_imagen_1")
    ensures p.brand == "ScentMart" && p.volume == "No especificado"
    ensures p.id == env.now(index) + index
    ensures p.stock == OrElse(env.parseInt(Field(row, "stock")), 0)
    ensures p.gender == GenderOf(Field(row, "genero")) && p.olfactoryFamily == FamilyOf(Field(row, "categoria"))
    ensures p.details.Some? && p.details.value.olfactoryNotes ==
      Notes(Field(row, "notas_salida"), Field(row, "notas_corazon"), Field(row, "notas_fondo"))
  {
    var discount := Field(row, "precio_descuento");
    var description := Field(row, "descripcion");
    Perfume(
      id := env.now(index) + index,
      name := Field(row, "nombre_producto"),
      brand := "ScentMart",
      volume := "No especificado",
      price := OrElse(env.parseFloat(discount), OrElse(env.parseFloat(Field(row, "precio")), 0)),
      originalPrice := if discount != "" then env.parseFloat(Field(row, "precio")) else None,
      stock := OrElse(env.parseInt(Field(row, "stock")), 0),
      imageUrl := Field(row, "url_imagen_1"),
      images := None,
      gender := GenderOf(Field(row, "genero")),
      olfactoryFamily := FamilyOf(Field(row, "categoria")),
      details := Some(Details(
        description := if description != "" then description else "Descripción no disponible.",
        olfactoryNotes := Notes(Field(row, "notas_salida"), Field(row, "notas_corazon"), Field(row, "notas_fondo")),
        concept := "Concepto por definir.",
        applicationPoint := "Aplicar en muñecas, cuello y detrás de las orejas.")),
      officialUrl := None,
      sales := None,
      rating := None,
      reviewCount := None,
      sku := None)
  }

  /** A row that was not imported, with the reason shown to the user. */
  datatype Rejection = Rejection(row: Row, reason: string)

  datatype Outcome = Succeeded(perfume: Perfume) | Skipped(skip: Rejection) | Failed(failure: Rejection)

  datatype ImportResult = ImportResult(successful: seq<Perfume>, skipped: seq<Rejection>, failed: seq<Rejection>)

  /** The rows are numbered as the file's lines: the header is line 1. */
  function RowLabel(index: nat): string {
    "Fila " + NatToString(index + 2)
  }

  function MissingSku(index: nat): string { RowLabel(index) + ": Falta el SKU." }
  function DuplicateSku(sku: string): string { "SKU '" + sku + "' duplicado en el archivo." }
  function MissingName(index: nat): string { RowLabel(index) + ": Falta el nombre del producto." }
  function KnownName(name: string): string { "Producto '" + name + "' ya existe en el catálogo." }
  function MissingImage(index: nat): string { RowLabel(index) + ": Falta la URL de la imagen principal." }

  /** The checks of validateData for one row, in their order
      (src/components/CSVImportModal.tsx:99-121); `seen` holds the SKUs of
      the earlier rows and `existing` the lowered names of the catalog. */
  function Classify(row: Row, index: nat, seen: set<string>, existing: set<string>, env: Env): (r: Outcome)
    ensures r.Succeeded? ==> r.perfume == BuildPerfume(row, index, env)
  {
    var sku := Field(row, "sku");
    var name := Field(row, "nombre_producto");
    if sku == "" then Failed(Rejection(row, MissingSku(index)))
    else if sku in seen then Skipped(Rejection(row, DuplicateSku(sku)))
    else if name == "" then Failed(Rejection(row, MissingName(index)))
    else if Lower(name) in existing then Skipped(Rejection(row, KnownName(name)))
    else if Field(row, "url_imagen_1") == "" then
      Failed(Rejection(row, MissingImage(index)))
    else Succeeded(BuildPerfume(row, index, env))
  }

  /** `csvSkus` as row `i` is reached: every non-empty SKU of the earlier rows.
      A SKU is recorded before the name and image checks, so a row that
      fails later still claims its SKU. */
  function SeenBefore(data: seq<Row>, i: nat): set<string>
    requires i <= |data|
  {
    set k | 0 <= k < i && Field(data[k], "sku") != "" :: Field(data[k], "sku")
  }

  /** `new Set(currentPerfumes.map(p => p.name.toLowerCase()))`. */
  function ExistingNames(ps: seq<Perfume>): set<string> {
    set k | 0 <= k < |ps| :: Lower(ps[k].name)
  }

  function Outcomes(data: seq<Row>, existing: set<string>, env: Env): (r: seq<Outcome>)
    ensures |r| == |data|
    ensures forall i :: 0 <= i < |data| ==> r[i] == Classify(data[i], i, SeenBefore(data, i), existing, env)
  {
    seq(|data|, i requires 0 <= i < |data| => Classify(data[i], i, SeenBefore(data, i), existing, env))
  }

  function Record(res: ImportResult, o: Outcome): ImportResult {
    match o
    case Succeeded(p) => res.(successful := res.successful + [p])
    case Skipped(r) => res.(skipped := res.skipped + [r])
    case Failed(r) => res.(failed := res.failed + [r])
  }

  /** The three lists after pushing each outcome in turn. */
  function Tally(os: seq<Outcome>): ImportResult {
    if |os| == 0 then ImportResult([], [], [])
    else Record(Tally(os[..|os| - 1]), os[|os| - 1])
  }

  /** validateData's result for the parsed rows. */
  function Validation(data: seq<Row>, existing: set<string>, env: Env): ImportResult {
    Tally(Outcomes(data, existing, env))
  }

  /** Every row lands in exactly one of the three lists. */
  lemma {:induction false} TallyCounts(os: seq<Outcome>)
    ensures |Tally(os).successful| + |Tally(os).skipped| + |Tally(os).failed| == |os|
  {
    if |os| > 0 {
      TallyCounts(os[..|os| - 1]);
    }
  }

  lemma ValidationCounts(data: seq<Row>, existing: set<string>, env: Env)
    ensures var res := Validation(data, existing, env);
      |res.successful| + |res.skipped| + |res.failed| == |data|
  {
    TallyCounts(Outcomes(data, existing, env));
  }

  /** A row is imported exactly when it has a SKU no earlier row had, a name
      the catalog does not hold in any case, and a main image. */
  lemma ClassifySucceeds(data: seq<Row>, i: nat, existing: set<string>, env: Env)
    requires i < |data|
    ensures Outcomes(data, existing, env)[i].Succeeded? <==>
      var row := data[i];
      Field(row, "sku") != "" && Field(row, "sku") !in SeenBefore(data, i)
      && Field(row, "nombre_producto") != "" && Lower(Field(row, "nombre_producto")) !in existing
      && Field(row, "url_imagen_1") != ""
  {
  }

  /** The checks in the order the source makes them, each with its reason:
      a missing SKU fails, a SKU of an earlier row is skipped, a missing name
      fails, a name the catalog already has (in any case) is skipped, a
      missing main image fails, and only a row passing all five is built. */
  lemma ClassifyRoute(data: seq<Row>, i: nat, existing: set<string>, env: Env)
    requires i < |data|
    ensures var row, o := data[i], Outcomes(data, existing, env)[i];
      var sku, name := Field(row, "sku"), Field(row, "nombre_producto");
      var seen := SeenBefore(data, i);
      && (sku == "" ==> o == Failed(Rejection(row, MissingSku(i))))
      && (sku != "" && sku in seen ==> o == Skipped(Rejection(row, DuplicateSku(sku))))
      && (sku != "" && sku !in seen && name == "" ==> o == Failed(Rejection(row, MissingName(i))))
      && (sku != "" && sku !in seen && name != "" && Lower(name) in existing ==>
            o == Skipped(Rejection(row, KnownName(name))))
      && (sku != "" && sku !in seen && name != "" && Lower(name) !in existing && Field(row, "url_imagen_1") == "" ==>
            o == Failed(Rejection(row, MissingImage(i))))
      && (sku != "" && sku !in seen && name != "" && Lower(name) !in existing && Field(row, "url_imagen_1") != "" ==>
            o == Succeeded(BuildPerfume(row, i, env)))
  {
  }

  /** Once a row with a SKU has been seen, every later row with that SKU is
      skipped, whatever became of the first. */
  lemma DuplicateSkuSkipped(data: seq<Row>, existing: set<string>, env: Env, i: nat, j: nat)
    requires i < j < |data|
    requires Field(data[i], "sku") != "" && Field(data[j], "sku") == Field(data[i], "sku")
    ensures Outcomes(data, existing, env)[j].Skipped?
  {
    assert Field(data[i], "sku") in SeenBefore(data, j);
  }

  /** No two imported rows share a SKU. */
  lemma SuccessSkusDistinct(data: seq<Row>, existing: set<string>, env: Env, i: nat, j: nat)
    requires i < j < |data|
    requires Outcomes(data, existing, env)[i].Succeeded? && Outcomes(data, existing, env)[j].Succeeded?
    ensures Field(data[i], "sku") != Field(data[j], "sku")
  {
    ClassifySucceeds(data, i, existing, env);
    assert Field(data[i], "sku") in SeenBefore(data, j);
  }

  /** With a clock that never runs backwards, the rows' ids are strictly
      increasing, so no two imported perfumes share an id. */
  lemma ImportIdsIncrease(data: seq<Row>, existing: set<string>, env: Env, i: nat, j: nat)
    requires forall a: nat, b: nat :: a <= b ==> env.now(a) <= env.now(b)
    requires i < j < |data|
    requires Outcomes(data, existing, env)[i].Succeeded? && Outcomes(data, existing, env)[j].Succeeded?
    ensures Outcomes(data, existing, env)[i].perfume.id < Outcomes(data, existing, env)[j].perfume.id
  {
    var os := Outcomes(data, existing, env);
    assert os[i].perfume.id == env.now(i) + i;
    assert os[j].perfume.id == env.now(j) + j;
  }

  lemma TallyStep(os: seq<Outcome>, i: nat)
    requires i < |os|
    ensures Tally(os[..i + 1]) == Record(Tally(os[..i]), os[i])
  {
    assert os[..i + 1][..i] == os[..i];
  }

  /** Passing row `i` records its SKU when it has one. */
  lemma SeenBeforeStep(data: seq<Row>, i: nat)
    requires i < |data|
    ensures SeenBefore(data, i + 1) ==
      SeenBefore(data, i) + (if Field(data[i], "sku") == "" then {} else {Field(data[i], "sku")})
  {
  }

  /** validateData (src/components/CSVImportModal.tsx:84-160): one pass over
      the rows that records each non-empty SKU as it goes. */
  method ValidateData(data: seq<Row>, currentPerfumes: seq<Perfume>, env: Env) returns (result: ImportResult)
    ensures result == Validation(data, ExistingNames(currentPerfumes), env)
  {
    var existing := ExistingNames(currentPerfumes);
    var csvSkus: set<string> := {};
    result := ImportResult([], [], []);
    ghost var os := Outcomes(data, existing, env);
    var index := 0;
    while index < |data|
      invariant 0 <= index <= |data|
      invariant csvSkus == SeenBefore(data, index)
      invariant result == Tally(os[..index])
    {
      var outcome;
      outcome, csvSkus := CheckRow(data[index], index, csvSkus, existing, env);
      result := Record(result, outcome);
      TallyStep(os, index);
      SeenBeforeStep(data, index);
      index := index + 1;
    }
    assert os[..|data|] == os;
  }

  /** The callback validateData runs for each row: the checks in order, with
      the SKU recorded once it has passed the duplicate check. */
  method CheckRow(row: Row, index: nat, csvSkus: set<string>, existing: set<string>, env: Env)
    returns (outcome: Outcome, skus: set<string>)
    ensures outcome == Classify(row, index, csvSkus, existing, env)
    ensures skus == csvSkus + (if Field(row, "sku") == "" then {} else {Field(row, "sku")})
  {
    var sku := Field(row, "sku");
    var name := Field(row, "nombre_producto");
    skus := csvSkus;
    if sku == "" {
      return Failed(Rejection(row, MissingSku(index))), skus;
    }
    if sku in skus {
      return Skipped(Rejection(row, DuplicateSku(sku))), skus;
    }
    skus := skus + {sku};
    if name == "" {
      return Failed(Rejection(row, MissingName(index))), skus;
    }
    if Lower(name) in existing {
      return Skipped(Rejection(row, KnownName(name))), skus;
    }
    if Field(row, "url_imagen_1") == "" {
      return Failed(Rejection(row, MissingImage(index))), skus;
    }
    outcome := Succeeded(BuildPerfume(row, index, env));
  }

  /** The outer loop of parseAndValidateCSV: every line after the header
      becomes a record (src/components/CSVImportModal.tsx:71-79). */
  method ParseRows(lines: seq<string>, headers: seq<string>, tokenize: string -> seq<string>) returns (parsedData: seq<Row>)
    requires |lines| >= 1
    ensures parsedData == Rows(lines[1..], headers, tokenize)
  {
    parsedData := [];
    var i := 1;
    while i < |lines|
      invariant 1 <= i <= |lines|
      invariant parsedData == Rows(lines[1..i], headers, tokenize)
    {
      var values := tokenize(lines[i]);
      var obj := ParseRow(headers, CellsOf(values));
      assert lines[1..i + 1] == lines[1..i] + [lines[i]];
      parsedData := parsedData + [obj];
      i := i + 1;
    }
    assert lines[1..i] == lines[1..];
  }

  /** The inner loop: column `j` of the record gets `cell(j)`, the `j`-th
      value of the line cleaned as `Cell` says
      (src/components/CSVImportModal.tsx:73-77). */
  method ParseRow(headers: seq<string>, cell: nat -> string) returns (obj: Row)
    ensures obj == BuildRow(headers, cell, |headers|)
  {
    obj := map[];
    var j := 0;
    while j < |headers|
      invariant 0 <= j <= |headers|
      invariant obj == BuildRow(headers, cell, j)
    {
      obj := obj[headers[j] := cell(j)];
      j := j + 1;
    }
  }

  /** What reading a file produced: an error message, or the result. */
  datatype ParseOutcome = ParseError(message: string) | Parsed(result: ImportResult)

  /** parseAndValidateCSV (src/components/CSVImportModal.tsx:54-82): fewer
      than two non-blank lines and a header other than the template's are
      errors; otherwise every data line becomes a row and the rows are
      validated. */
  method ParseAndValidate(csvText: string, currentPerfumes: seq<Perfume>, tokenize: string -> seq<string>, env: Env)
    returns (r: ParseOutcome)
    ensures var lines := NonBlankLines(csvText);
      && (|lines| < 2 ==> r == ParseError(EmptyFileMsg))
      && (|lines| >= 2 && Trim(lines[0]) != CsvHeaders ==> r == ParseError(HeaderMismatchMsg))
      && (|lines| >= 2 && Trim(lines[0]) == CsvHeaders ==>
            r == Parsed(Validation(Rows(lines[1..], HeaderNames, tokenize), ExistingNames(currentPerfumes), env)))
  {
    var lines := NonBlankLines(csvText);
    if |lines| < 2 {
      return ParseError(EmptyFileMsg);
    }
    var header := Trim(lines[0]);
    if header != CsvHeaders {
      return ParseError(HeaderMismatchMsg);
    }
    var headers := Split(header, ',');
    SplitCsvHeaders();
    var parsedData := ParseRows(lines, headers, tokenize);
    var result := ValidateData(parsedData, currentPerfumes, env);
    return Parsed(result);
  }

  /** The dialog's state: an error message or a result, never both. */
  class ImportModal {
    var error: Option<string>
    var result: Option<ImportResult>

    ghost predicate Valid()
      reads this
    {
      !(error.Some? && result.Some?)
    }

    constructor ()
      ensures Valid() && error == None && result == None
    {
      error := None;
      result := None;
    }

    /** processFile (src/components/CSVImportModal.tsx:35-52), with the
        reader's outcome given as `text` (`None` when reading failed). */
    method ProcessFile(fileType: string, text: Option<string>, currentPerfumes: seq<Perfume>,
                       tokenize: string -> seq<string>, env: Env)
      modifies this
      ensures Valid()
      ensures fileType != "text/csv" ==> error == Some(WrongTypeMsg) && result == None
      ensures fileType == "text/csv" && text.None? ==> error == Some(ReadErrorMsg) && result == None
      ensures fileType == "text/csv" && text.Some? ==>
        var lines := NonBlankLines(text.value);
        && (|lines| < 2 ==> error == Some(EmptyFileMsg) && result == None)
        && (|lines| >= 2 && Trim(lines[0]) != CsvHeaders ==> error == Some(HeaderMismatchMsg) && result == None)
        && (|lines| >= 2 && Trim(lines[0]) == CsvHeaders ==>
              error == None && result == Some(Validation(Rows(lines[1..], HeaderNames, tokenize), ExistingNames(currentPerfumes), env)))
    {
      error := None;
      result := None;
      if fileType != "text/csv" {
        error := Some(WrongTypeMsg);
        return;
      }
      match text {
        case None =>
          error := Some(ReadErrorMsg);
        case Some(t) =>
          var outcome := ParseAndValidate(t, currentPerfumes, tokenize, env);
          match outcome {
            case ParseError(message) => error := Some(message);
            case Parsed(res) => result := Some(res);
          }
      }
    }

    /** handleReset (src/components/CSVImportModal.tsx:184-187). */
    method HandleReset()
      modifies this
      ensures Valid() && error == None && result == None
    {
      result := None;
      error := None;
    }

    /** handleImportClick (src/components/CSVImportModal.tsx:189-193): the
        successful perfumes are handed on only when there are some. */
    method HandleImportClick() returns (imported: Option<seq<Perfume>>)
      ensures imported.Some? <==> result.Some? && |result.value.successful| > 0
      ensures imported.Some? ==> imported.value == result.value.successful
    {
      if result.Some? && |result.value.successful| > 0 {
        imported := Some(result.value.successful);
      } else {
        imported := None;
      }
    }
  }
}
