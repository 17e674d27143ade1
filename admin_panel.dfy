/**
 * The admin panel's decisions: which uploaded spreadsheets are accepted, how
 * their rows are merged into the catalogue, and what a delete leaves behind.
 * The notifications, the `isUploading` flag and the file input are UI state
 * and are not part of this model.
 */
module AdminPanel {
  import opened Records

  /** The columns an uploaded sheet must have in its first row, in the order they are reported. */
  const REQUIRED_COLUMNS: seq<string> := ["ProductId", "Image Url", "Product Desc", "Promotion Url"]

  /**
   * What parsing the uploaded file produced: the reader or the spreadsheet
   * library failed, a value that is not an array, or the rows of the first
   * sheet, each an object keyed by column header.
   */
  datatype Sheet = Unreadable | NotArray | Rows(rows: seq<Record>)

  /** How an upload ends; only `Added` hands a list to `onProductsUpdate`. */
  datatype Upload =
    | NoFile
    | WrongExtension
    | ParseFailed
    | NoData
    | MissingColumns(columns: seq<string>)
    | NoNewProducts
    | Added(updated: seq<Record>, count: nat)

  /** What `onProductsUpdate` receives, if it is called at all. */
  function UpdateOf(u: Upload): Option<seq<Record>> {
    if u.Added? then Some(u.updated) else None
  }

  function LowerChar(c: char): char {
    if 'A' <= c <= 'Z' then (c as int + 32) as char else c
  }

  /** `toLowerCase()` on the letters that can occur in ".xlsx" and ".xls". */
  function ToLower(s: string): (r: string)
    ensures |r| == |s|
    ensures forall i :: 0 <= i < |s| ==> r[i] == LowerChar(s[i])
  {
    seq(|s|, i requires 0 <= i < |s| => LowerChar(s[i]))
  }

  function EndsWith(s: string, suffix: string): bool {
    |suffix| <= |s| && s[|s| - |suffix|..] == suffix
  }

  /** Lower-casing commutes with taking the last four or five characters. */
  lemma ToLowerSuffixes(s: string)
    ensures |s| >= 4 ==> ToLower(s)[|s| - 4..] == ToLower(s[|s| - 4..])
    ensures |s| >= 5 ==> ToLower(s)[|s| - 5..] == ToLower(s[|s| - 5..])
  {
  }

  /**
   * The extension test of the upload handler: it looks only at the last four
   * or five characters of the name, whatever their letter case.
   */
  function IsExcelName(name: string): (r: bool)
    ensures r <==> ((|name| >= 5 && ToLower(name[|name| - 5..]) == ".xlsx") ||
                    (|name| >= 4 && ToLower(name[|name| - 4..]) == ".xls"))
  {
    ToLowerSuffixes(name);
    EndsWith(ToLower(name), ".xlsx") || EndsWith(ToLower(name), ".xls")
  }

  /** The extension test ignores letter case: lower-casing the name first changes nothing. */
  lemma ExcelNameIgnoresCase(name: string)
    ensures IsExcelName(ToLower(name)) == IsExcelName(name)
  {
    assert ToLower(ToLower(name)) == ToLower(name);
  }

  function NotIn(ids: set<Id>): Record -> bool {
    p => IdOf(p) !in ids
  }

  /**
   * `deduplicateProducts`: the incoming rows whose id is not the id of any
   * existing product, in their original order. Rows are checked against the
   * existing list only, never against each other.
   */
  function DeduplicateProducts(newProducts: seq<Record>, existing: seq<Record>): (r: seq<Record>)
    ensures forall p :: p in r <==> p in newProducts && IdOf(p) !in IdsOf(existing)
    ensures IdsOf(r) !! IdsOf(existing)
    ensures IdsOf(r) <= IdsOf(newProducts)
  {
    Filter(newProducts, NotIn(IdsOf(existing)))
  }

  function Absent(row: Record): string -> bool {
    col => col !in row
  }

  /** `requiredColumns.filter(col => !(col in firstRow))`. */
  function MissingColumnsOf(firstRow: Record): (r: seq<string>)
    ensures forall c :: c in r <==> c in REQUIRED_COLUMNS && c !in firstRow
    ensures |r| <= |REQUIRED_COLUMNS|
  {
    Filter(REQUIRED_COLUMNS, Absent(firstRow))
  }

  /** The guard chain of `handleFileUpload`, from the chosen file to the outcome. */
  function HandleFileUpload(file: Option<string>, sheet: Sheet, products: seq<Record>): (r: Upload)
    ensures !r.NoFile? <==> file.Some?
    ensures file.Some? && !IsExcelName(file.value) <==> r.WrongExtension?
    ensures r.MissingColumns? || r.NoNewProducts? || r.Added? ==>
      && file.Some? && IsExcelName(file.value)
      && sheet.Rows? && sheet.rows != []
      && (r.MissingColumns? <==> MissingColumnsOf(sheet.rows[0]) != [])
    ensures r.MissingColumns? ==> r.columns != [] && r.columns == MissingColumnsOf(sheet.rows[0])
    ensures r.Added? ==>
      && 0 < r.count <= |sheet.rows|
      && |r.updated| == |products| + r.count
      && r.updated[..|products|] == products
      && (forall p :: p in r.updated[|products|..] ==> p in sheet.rows && IdOf(p) !in IdsOf(products))
  {
    if file.None? then NoFile
    else if !IsExcelName(file.value) then WrongExtension
    else match sheet
      case Unreadable => ParseFailed
      case NotArray => NoData
      case Rows(rows) =>
        if |rows| == 0 then NoData
        else
          var missing := MissingColumnsOf(rows[0]);
          if |missing| > 0 then MissingColumns(missing)
          else
            var unique := DeduplicateProducts(rows, products);
            if |unique| == 0 then NoNewProducts
            else Added(products + unique, |unique|)
  }

  /** A file whose name does not end in .xlsx or .xls is refused before it is read. */
  lemma UploadRejectsOtherFiles(name: string, sheet: Sheet, products: seq<Record>)
    requires !IsExcelName(name)
    ensures HandleFileUpload(Some(name), sheet, products) == WrongExtension
    ensures UpdateOf(HandleFileUpload(Some(name), sheet, products)) == None
  {
  }

  /** Parsed data that is not an array, or is empty, is refused with no update. */
  lemma UploadRejectsEmptyData(name: string, sheet: Sheet, products: seq<Record>)
    requires IsExcelName(name)
    requires sheet == NotArray || sheet == Rows([])
    ensures HandleFileUpload(Some(name), sheet, products) == NoData
  {
  }

  /**
   * Only the first row is inspected for required columns: when it lacks some,
   * the batch is refused with those columns listed in required order, whatever
   * the later rows hold.
   */
  lemma UploadChecksFirstRowOnly(name: string, first: Record, rest: seq<Record>, products: seq<Record>)
    requires IsExcelName(name)
    requires MissingColumnsOf(first) != []
    ensures HandleFileUpload(Some(name), Rows([first] + rest), products) == MissingColumns(MissingColumnsOf(first))
  {
  }

  /** A first row with no columns at all misses every required column, reported in order. */
  lemma EmptyRowMissesAll()
    ensures MissingColumnsOf(map[]) == REQUIRED_COLUMNS
  {
    FilterKeepsAll(REQUIRED_COLUMNS, Absent(map[]));
  }

  /** A well-formed batch whose every id is already in the catalogue yields "no new products". */
  lemma {:induction false} UploadOfKnownIdsAddsNothing(name: string, rows: seq<Record>, products: seq<Record>)
    requires IsExcelName(name)
    requires rows != [] && MissingColumnsOf(rows[0]) == []
    requires forall p :: p in rows ==> IdOf(p) in IdsOf(products)
    ensures HandleFileUpload(Some(name), Rows(rows), products) == NoNewProducts
    ensures UpdateOf(HandleFileUpload(Some(name), Rows(rows), products)) == None
  {
    FilterDropsAll(rows, NotIn(IdsOf(products)));
  }

  /**
   * A successful upload appends the new rows after the existing products,
   * which all stay in place unchanged; the count reported is the number of
   * rows appended, and none of them repeats an existing id.
   */
  lemma UploadAppendsNewRows(file: Option<string>, sheet: Sheet, products: seq<Record>)
    requires HandleFileUpload(file, sheet, products).Added?
    ensures sheet.Rows?
    ensures var u := HandleFileUpload(file, sheet, products);
      && u.updated[..|products|] == products
      && u.updated[|products|..] == DeduplicateProducts(sheet.rows, products)
      && u.count == |u.updated| - |products| > 0
      && IdsOf(u.updated[|products|..]) !! IdsOf(products)
  {
    var u := HandleFileUpload(file, sheet, products);
    assert u.updated[..|products|] == products;
    assert u.updated[|products|..] == DeduplicateProducts(sheet.rows, products);
  }

  /**
   * The merged list has distinct ids provided the catalogue and the uploaded
   * batch each had distinct ids: rows are deduplicated against the catalogue
   * only.
   */
  lemma UploadKeepsIdsDistinct(file: Option<string>, sheet: Sheet, products: seq<Record>)
    requires HandleFileUpload(file, sheet, products).Added?
    requires sheet.Rows? && DistinctIds(products) && DistinctIds(sheet.rows)
    ensures DistinctIds(HandleFileUpload(file, sheet, products).updated)
  {
    var unique := DeduplicateProducts(sheet.rows, products);
    FilterKeepsDistinct(sheet.rows, NotIn(IdsOf(products)));
    DistinctAppend(products, unique);
  }

  /** Rows that repeat an id inside one batch both survive deduplication. */
  lemma BatchDuplicatesSurvive(row: Record, products: seq<Record>)
    requires IdOf(row) !in IdsOf(products)
    ensures DeduplicateProducts([row, row], products) == [row, row]
    ensures !DistinctIds([row, row])
  {
    FilterKeepsAll([row, row], NotIn(IdsOf(products)));
    assert IdOf([row, row][0]) == IdOf([row, row][1]);
  }

  function Product(id: string, desc: string): Record {
    map["ProductId" := Text(id), "Image Url" := Text("img"), "Product Desc" := Text(desc),
        "Promotion Url" := Text("link")]
  }

  /**
   * Catalogue [A]; uploading [A (other description), B] keeps the original A,
   * appends B and reports one new product.
   */
  lemma UploadScenario()
    ensures var a, a2, b := Product("A", "original"), Product("A", "changed"), Product("B", "new");
      HandleFileUpload(Some("Catalogue.XLSX"), Rows([a2, b]), [a]) == Added([a, b], 1)
  {
    var a, a2, b := Product("A", "original"), Product("A", "changed"), Product("B", "new");
    assert IsExcelName("Catalogue.XLSX") by {
      assert ToLower("Catalogue.XLSX")[9..] == ".xlsx";
    }
    assert IdOf(a2) == IdOf(a) && IdOf(b) != IdOf(a);
    assert IdsOf([a]) == {IdOf(a)};
    assert [a2, b][1..] == [b];
    assert DeduplicateProducts([a2, b], [a]) == [b];
    FilterDropsAll(REQUIRED_COLUMNS, Absent(a2));
  }

  /** Deleting B from [A, B] leaves [A]. */
  lemma DeleteScenario()
    ensures var a, b := Product("A", "first"), Product("B", "second");
      Without([a, b], Some(Text("B"))) == [a]
  {
    var a, b := Product("A", "first"), Product("B", "second");
    assert IdOf(a) == Some(Text("A")) && IdOf(b) == Some(Text("B"));
    assert [a, b] == [a] + [b];
    WithoutAppend([a], [b], Some(Text("B")));
    assert [a][1..] == [] && [b][1..] == [];
  }
}
