/**
 * The tech-stack tally of `analyze_data.py`: keep the jobs whose title
 * names both search keywords, parse their stored tech-stack cells, flatten
 * them into one upper-cased list, fold every language-certificate variant
 * into "ANGOL", and count each distinct entry.
 */
module Analysis {
  import opened Results
  import opened Text
  import opened ValueCounts

  /**
   * A `job_tech_stack` cell: missing (`None`/NaN), a string, or a list of
   * strings (what `ast.literal_eval` makes of a stored JSON list).
   */
  datatype Cell = NullCell | TextCell(text: string) | ListCell(items: seq<string>)

  /** The two columns of a stored job row the tally reads. */
  datatype AnalysisRow = AnalysisRow(title: string, techStack: Cell)

  /** `ast.literal_eval` on one string: the value it denotes, or `None` when it raises. */
  type Parser = string -> Option<Cell>

  /**
   * The tally's result: the flattened, normalised list, its counts, and the
   * order `value_counts` lists the distinct entries in.
   */
  datatype Tally = Tally(techStack: seq<string>, counts: map<string, nat>, ranking: seq<string>)

  /** The title contains both keywords, each compared ignoring case. */
  predicate KeepRow(row: AnalysisRow, kw0: string, kw1: string): (b: bool)
    ensures b <==> (exists k :: OccursAt(Lower(row.title), Lower(kw0), k)) && (exists k :: OccursAt(Lower(row.title), Lower(kw1), k))
  {
    ContainsIffOccurs(Lower(row.title), Lower(kw0));
    ContainsIffOccurs(Lower(row.title), Lower(kw1));
    ContainsIgnoreCase(row.title, kw0) && ContainsIgnoreCase(row.title, kw1)
  }

  /** The mask `str.contains(kw0, case=False) & str.contains(kw1, case=False)` over the titles. */
  function TitleMask(rows: seq<AnalysisRow>, kw0: string, kw1: string): (r: seq<bool>)
    ensures |r| == |rows| && forall i :: 0 <= i < |rows| ==> (r[i] <==> KeepRow(rows[i], kw0, kw1))
  {
    seq(|rows|, i requires 0 <= i < |rows| => KeepRow(rows[i], kw0, kw1))
  }

  /** `frame[mask]`: the entries whose mask value is true, in their original order. */
  function Select<T>(xs: seq<T>, mask: seq<bool>): (r: seq<T>)
    requires |mask| == |xs|
    ensures |r| <= |xs|
  {
    if xs == [] then []
    else
      var n := |xs| - 1;
      var rest := Select(xs[..n], mask[..n]);
      if mask[n] then rest + [xs[n]] else rest
  }

  /** An entry is selected exactly when it sits at a position the mask marks. */
  lemma {:induction false} SelectMembers<T>(xs: seq<T>, mask: seq<bool>, x: T)
    requires |mask| == |xs|
    ensures x in Select(xs, mask) <==> exists i :: 0 <= i < |xs| && mask[i] && xs[i] == x
  {
    if xs != [] {
      var n := |xs| - 1;
      SelectMembers(xs[..n], mask[..n], x);
      if exists i :: 0 <= i < n && mask[..n][i] && xs[..n][i] == x {
        var i :| 0 <= i < n && mask[..n][i] && xs[..n][i] == x;
        assert mask[i] && xs[i] == x;
      }
      if exists i :: 0 <= i < |xs| && mask[i] && xs[i] == x {
        var i :| 0 <= i < |xs| && mask[i] && xs[i] == x;
        if i < n {
          assert mask[..n][i] && xs[..n][i] == x;
        }
      }
    }
  }

  /** Selection distributes over concatenation of entries and masks. */
  lemma {:induction false} SelectAppend<T>(a: seq<T>, ma: seq<bool>, b: seq<T>, mb: seq<bool>)
    requires |ma| == |a| && |mb| == |b|
    ensures Select(a + b, ma + mb) == Select(a, ma) + Select(b, mb)
    decreases |b|
  {
    if b == [] {
      assert a + b == a;
      assert ma + mb == ma;
    } else {
      var n := |b| - 1;
      SelectAppend(a, ma, b[..n], mb[..n]);
      assert (a + b)[..|a| + n] == a + b[..n];
      assert (ma + mb)[..|a| + n] == ma + mb[..n];
    }
  }

  /** The rows whose title names both keywords, in their original order. */
  function FilterByTitle(rows: seq<AnalysisRow>, kw0: string, kw1: string): (r: seq<AnalysisRow>)
    ensures |r| <= |rows|
  {
    Select(rows, TitleMask(rows, kw0, kw1))
  }

  /** A row is kept exactly when it is one of the rows and its title names both keywords. */
  lemma FilterByTitleMembers(rows: seq<AnalysisRow>, kw0: string, kw1: string, row: AnalysisRow)
    ensures row in FilterByTitle(rows, kw0, kw1) <==> row in rows && KeepRow(row, kw0, kw1)
  {
    SelectMembers(rows, TitleMask(rows, kw0, kw1), row);
  }

  /** Filtering distributes over concatenation, so the kept rows keep their relative order. */
  lemma FilterByTitleAppend(a: seq<AnalysisRow>, b: seq<AnalysisRow>, kw0: string, kw1: string)
    ensures FilterByTitle(a + b, kw0, kw1) == FilterByTitle(a, kw0, kw1) + FilterByTitle(b, kw0, kw1)
  {
    assert TitleMask(a + b, kw0, kw1) == TitleMask(a, kw0, kw1) + TitleMask(b, kw0, kw1);
    SelectAppend(a, TitleMask(a, kw0, kw1), b, TitleMask(b, kw0, kw1));
  }

  /** The tech-stack column of some rows, in row order. */
  function TechColumn(rows: seq<AnalysisRow>): (r: seq<Cell>)
    ensures |r| == |rows| && forall i :: 0 <= i < |rows| ==> r[i] == rows[i].techStack
  {
    seq(|rows|, i requires 0 <= i < |rows| => rows[i].techStack)
  }

  /** The lambda applied to each cell: strings are parsed, anything else passes through. */
  function ParseCell(cell: Cell, parse: Parser): Option<Cell> {
    match cell
    case TextCell(t) => parse(t)
    case _ => Some(cell)
  }

  /** `Series.apply` of that lambda: the parsed column, or `None` when some parse raises. */
  function ParseAll(cells: seq<Cell>, parse: Parser): (r: Option<seq<Cell>>)
    ensures r.Some? <==> forall i :: 0 <= i < |cells| ==> !cells[i].TextCell? || parse(cells[i].text).Some?
    ensures r.Some? ==> |r.value| == |cells|
    ensures r.Some? ==> forall i :: 0 <= i < |cells| && !cells[i].TextCell? ==> r.value[i] == cells[i]
    ensures r.Some? ==> forall i :: 0 <= i < |cells| && cells[i].TextCell? ==> parse(cells[i].text) == Some(r.value[i])
  {
    if cells == [] then Some([])
    else
      match ParseAll(cells[..|cells| - 1], parse)
      case None => None
      case Some(init) =>
        match ParseCell(cells[|cells| - 1], parse)
        case None => None
        case Some(c) => Some(init + [c])
  }

  /**
   * `preprocess_tech_stack`: reading the first entry for the log raises
   * `IndexError` on an empty column; a parse that raises is caught, which
   * leaves `list_series` unbound, so the return raises `UnboundLocalError`.
   */
  function Preprocess(cells: seq<Cell>, parse: Parser): (r: Outcome<seq<Cell>>)
    ensures r == Raised(IndexError) <==> cells == []
    ensures r == Raised(UnboundLocalError) <==>
              cells != [] && exists i :: 0 <= i < |cells| && cells[i].TextCell? && parse(cells[i].text).None?
    ensures r.Raised? ==> r.error == IndexError || r.error == UnboundLocalError
    ensures r.Ok? ==> |r.value| == |cells|
    ensures r.Ok? ==> forall i :: 0 <= i < |cells| && !cells[i].TextCell? ==> r.value[i] == cells[i]
    ensures r.Ok? ==> forall i :: 0 <= i < |cells| && cells[i].TextCell? ==> parse(cells[i].text) == Some(r.value[i])
  {
    if cells == [] then Raised(IndexError)
    else
      match ParseAll(cells, parse)
      case None => Raised(UnboundLocalError)
      case Some(parsed) => Ok(parsed)
  }

  /** What iterating one non-missing cell yields: a list's items, or a string's single characters. */
  function Elements(cell: Cell): (r: seq<string>)
    ensures |r| == ElementCount([cell])
    ensures cell.TextCell? ==> forall i :: 0 <= i < |r| ==> |r[i]| == 1 && r[i][0] == cell.text[i]
    ensures cell.ListCell? ==> r == cell.items
    ensures cell.NullCell? ==> r == []
  {
    assert [cell][..0] == [];
    match cell
    case NullCell => []
    case TextCell(t) => seq(|t|, i requires 0 <= i < |t| => [t[i]])
    case ListCell(items) => items
  }

  /** The number of entries the cells hold, missing cells counting none. */
  function ElementCount(cells: seq<Cell>): nat {
    if cells == [] then 0
    else ElementCount(cells[..|cells| - 1]) + match cells[|cells| - 1] {
      case NullCell => 0
      case TextCell(t) => |t|
      case ListCell(items) => |items|
    }
  }

  /** Each entry upper-cased. */
  function UpperAll(entries: seq<string>): (r: seq<string>)
    ensures |r| == |entries| && forall i :: 0 <= i < |entries| ==> r[i] == Upper(entries[i])
  {
    seq(|entries|, i requires 0 <= i < |entries| => Upper(entries[i]))
  }

  /** The entries of all cells, cell after cell, each cell giving `f` of it. */
  function ConcatMap<T, U>(xs: seq<T>, f: T -> seq<U>): seq<U> {
    if xs == [] then []
    else ConcatMap(xs[..|xs| - 1], f) + f(xs[|xs| - 1])
  }

  /** Mapping over a concatenation concatenates the two mapped parts. */
  lemma {:induction false} ConcatMapAppend<T, U>(a: seq<T>, b: seq<T>, f: T -> seq<U>)
    ensures ConcatMap(a + b, f) == ConcatMap(a, f) + ConcatMap(b, f)
    decreases |b|
  {
    if b == [] {
      assert a + b == a;
    } else {
      var init := b[..|b| - 1];
      ConcatMapAppend(a, init, f);
      assert (a + b)[..|a + b| - 1] == a + init;
    }
  }

  /** One cell's entries, upper-cased. */
  function CellEntries(cell: Cell): seq<string> {
    UpperAll(Elements(cell))
  }

  /**
   * The comprehension over `dropna()`: every entry of every non-missing
   * cell, upper-cased, cell after cell.
   */
  function Flatten(cells: seq<Cell>): (r: seq<string>)
    ensures |r| == ElementCount(cells)
  {
    EntriesCounted(cells);
    ConcatMap(cells, CellEntries)
  }

  /** The mapped cells hold as many entries as `ElementCount` counts. */
  lemma {:induction false} EntriesCounted(cells: seq<Cell>)
    ensures |ConcatMap(cells, CellEntries)| == ElementCount(cells)
  {
    if cells != [] {
      EntriesCounted(cells[..|cells| - 1]);
    }
  }

  /** Every entry of the flattened list is already upper-case. */
  lemma {:induction false} FlattenIsUpper(cells: seq<Cell>)
    ensures forall i :: 0 <= i < |Flatten(cells)| ==> Upper(Flatten(cells)[i]) == Flatten(cells)[i]
  {
    if cells != [] {
      var init := cells[..|cells| - 1];
      var entries := Elements(cells[|cells| - 1]);
      FlattenIsUpper(init);
      var flat, tail := Flatten(init), CellEntries(cells[|cells| - 1]);
      assert Flatten(cells) == flat + tail;
      forall i | 0 <= i < |flat + tail| ensures Upper((flat + tail)[i]) == (flat + tail)[i] {
        if i >= |flat| {
          UpperIsNormal(entries[i - |flat|]);
        }
      }
    }
  }

  /** Flattening distributes over concatenation. */
  lemma FlattenAppend(a: seq<Cell>, b: seq<Cell>)
    ensures Flatten(a + b) == Flatten(a) + Flatten(b)
  {
    ConcatMapAppend(a, b, CellEntries);
  }

  /** A missing cell anywhere contributes nothing: it is as if it were not there. */
  lemma FlattenSkipsMissing(a: seq<Cell>, b: seq<Cell>)
    ensures Flatten(a + [NullCell] + b) == Flatten(a + b)
  {
    FlattenAppend(a + [NullCell], b);
    FlattenAppend(a, [NullCell]);
    FlattenAppend(a, b);
    assert Flatten([NullCell]) == [] by {
      assert [NullCell][..0] == [];
    }
    assert Flatten(a) + [] == Flatten(a);
  }

  /** The single category every language-certificate variant is folded into. */
  const AngolTag := "ANGOL"

  /** `"ANGOL" if "ANGOL" in tech else tech`. */
  function Canonical(tech: string): (r: string)
    ensures r == AngolTag <==> Contains(tech, AngolTag)
    ensures !Contains(tech, AngolTag) ==> r == tech
  {
    assert Contains(AngolTag, AngolTag) by {
      assert StartsWith(AngolTag, AngolTag);
    }
    if Contains(tech, AngolTag) then AngolTag else tech
  }

  /** Every entry containing "ANGOL" becomes exactly "ANGOL"; every other entry is kept. */
  function NormalizeAngol(techs: seq<string>): (r: seq<string>)
    ensures |r| == |techs|
    ensures forall i :: 0 <= i < |techs| ==> (r[i] == AngolTag <==> Contains(techs[i], AngolTag))
    ensures forall i :: 0 <= i < |techs| && !Contains(techs[i], AngolTag) ==> r[i] == techs[i]
  {
    seq(|techs|, i requires 0 <= i < |techs| => Canonical(techs[i]))
  }

  /** Folding twice is folding once. */
  lemma NormalizeAngolIdempotent(techs: seq<string>)
    ensures NormalizeAngol(NormalizeAngol(techs)) == NormalizeAngol(techs)
  {
    var once := NormalizeAngol(techs);
    var twice := NormalizeAngol(once);
    forall i | 0 <= i < |techs| ensures twice[i] == once[i] {
      if Contains(techs[i], AngolTag) {
        assert Contains(once[i], AngolTag) by {
          assert StartsWith(AngolTag, AngolTag);
        }
      }
    }
  }

  /** What the tally makes of the preprocessed column. */
  function Summarize(cells: seq<Cell>): (r: Tally)
    ensures |r.techStack| == ElementCount(cells)
    ensures forall t :: t in r.counts <==> t in r.techStack
    ensures multiset(r.ranking) == multiset(Distinct(r.techStack))
  {
    var techs := NormalizeAngol(Flatten(cells));
    var counts := Counts(techs);
    RankIsPermutation(Distinct(techs), counts);
    Tally(techs, counts, Rank(Distinct(techs), counts))
  }

  /** The row's tech-stack cell is a string the parser rejects. */
  predicate Unparsable(row: AnalysisRow, parse: Parser) {
    row.techStack.TextCell? && parse(row.techStack.text).None?
  }

  /** No row is kept exactly when no title names both keywords. */
  lemma {:induction false} NothingKeptIff(rows: seq<AnalysisRow>, kw0: string, kw1: string)
    ensures FilterByTitle(rows, kw0, kw1) == [] <==> forall row :: row in rows ==> !KeepRow(row, kw0, kw1)
  {
    var kept := FilterByTitle(rows, kw0, kw1);
    if kept != [] {
      FilterByTitleMembers(rows, kw0, kw1, kept[0]);
    }
    forall row | row in rows && KeepRow(row, kw0, kw1) ensures row in kept {
      FilterByTitleMembers(rows, kw0, kw1, row);
    }
  }

  /** The kept column holds a string the parser rejects exactly when some kept row is unparsable. */
  lemma {:induction false} UnparsableKeptIff(rows: seq<AnalysisRow>, kw0: string, kw1: string, parse: Parser)
    ensures var column := TechColumn(FilterByTitle(rows, kw0, kw1));
            (exists i :: 0 <= i < |column| && column[i].TextCell? && parse(column[i].text).None?) <==>
            exists row :: row in rows && KeepRow(row, kw0, kw1) && Unparsable(row, parse)
  {
    var kept := FilterByTitle(rows, kw0, kw1);
    var column := TechColumn(kept);
    if exists i :: 0 <= i < |column| && column[i].TextCell? && parse(column[i].text).None? {
      var i :| 0 <= i < |column| && column[i].TextCell? && parse(column[i].text).None?;
      var row := kept[i];
      FilterByTitleMembers(rows, kw0, kw1, row);
      assert row in rows && KeepRow(row, kw0, kw1) && Unparsable(row, parse);
    }
    if exists row :: row in rows && KeepRow(row, kw0, kw1) && Unparsable(row, parse) {
      var row :| row in rows && KeepRow(row, kw0, kw1) && Unparsable(row, parse);
      FilterByTitleMembers(rows, kw0, kw1, row);
      var i :| 0 <= i < |kept| && kept[i] == row;
      assert column[i].TextCell? && parse(column[i].text).None?;
    }
  }

  /**
   * `analyze_tech_stack`: filter by title, preprocess the kept tech-stack
   * column, and summarise it.
   */
  function AnalyzeTechStack(rows: seq<AnalysisRow>, kw0: string, kw1: string, parse: Parser): (r: Outcome<Tally>)
    ensures r == Raised(IndexError) <==> forall row :: row in rows ==> !KeepRow(row, kw0, kw1)
    ensures r == Raised(UnboundLocalError) <==>
              exists row :: row in rows && KeepRow(row, kw0, kw1) && Unparsable(row, parse)
    ensures r.Raised? ==> r.error == IndexError || r.error == UnboundLocalError
    ensures r.Ok? ==> forall t :: t in r.value.counts <==> t in r.value.techStack
    ensures r.Ok? ==> var parsed := ParseAll(TechColumn(FilterByTitle(rows, kw0, kw1)), parse);
                      parsed.Some? && r.value == Summarize(parsed.value)
  {
    var column := TechColumn(FilterByTitle(rows, kw0, kw1));
    NothingKeptIff(rows, kw0, kw1);
    UnparsableKeptIff(rows, kw0, kw1, parse);
    match Preprocess(column, parse)
    case Raised(e) => Raised(e)
    case Ok(cells) => Ok(Summarize(cells))
  }

  /**
   * The counts in a tally are the multiplicities of its entries and add up
   * to its length, and its ranking lists them by decreasing count.
   */
  lemma SummaryAccountsForEveryEntry(cells: seq<Cell>)
    ensures var t := Summarize(cells);
            (forall e :: e in t.counts ==> t.counts[e] == multiset(t.techStack)[e])
            && SumCounts(Distinct(t.techStack), t.counts) == |t.techStack|
            && RankedByCount(t.ranking, t.counts)
  {
    var t := Summarize(cells);
    CountsAreMultiplicities(t.techStack);
    CountsSumToLength(t.techStack);
    RankIsRanked(Distinct(t.techStack), t.counts);
  }

  /** The three preprocessed cells of the example: two lists and an empty one. */
  const ExampleCells := [ListCell(["Python", "SQL"]), ListCell(["Java", "Python", "Angol (B2)"]), ListCell([])]

  /** The example's entries, upper-cased. */
  lemma ExampleUpperCases()
    ensures Upper("Python") == "PYTHON" && Upper("SQL") == "SQL" && Upper("Java") == "JAVA"
    ensures Upper("Angol (B2)") == "ANGOL (B2)"
  {
  }

  /** The example cell of the first row flattens to its two entries, upper-cased. */
  lemma ExampleFirstRow()
    ensures Flatten(ExampleCells[..1]) == ["PYTHON", "SQL"]
  {
    var c := ExampleCells[..1];
    assert c[..0] == [];
    assert c[0] == ListCell(["Python", "SQL"]);
    ExampleUpperCases();
    assert CellEntries(c[0]) == UpperAll(["Python", "SQL"]) == ["PYTHON", "SQL"];
    assert ConcatMap(c, CellEntries) == ConcatMap([], CellEntries) + CellEntries(c[0]);
  }

  /** The second row appends its three entries, upper-cased. */
  lemma ExampleSecondRow()
    ensures Flatten(ExampleCells[..2]) == Flatten(ExampleCells[..1]) + ["JAVA", "PYTHON", "ANGOL (B2)"]
  {
    var c := ExampleCells[..2];
    assert c[..1] == ExampleCells[..1];
    assert c[1] == ListCell(["Java", "Python", "Angol (B2)"]);
    ExampleUpperCases();
    assert CellEntries(c[1]) == UpperAll(["Java", "Python", "Angol (B2)"]) == ["JAVA", "PYTHON", "ANGOL (B2)"];
    assert ConcatMap(c, CellEntries) == ConcatMap(c[..1], CellEntries) + CellEntries(c[1]);
  }

  /** The example cells flatten to the upper-cased entries, row after row. */
  lemma ExampleFlattens()
    ensures Flatten(ExampleCells) == ["PYTHON", "SQL", "JAVA", "PYTHON", "ANGOL (B2)"]
  {
    ExampleFirstRow();
    ExampleSecondRow();
    var c := ExampleCells;
    assert c[..|c| - 1] == ExampleCells[..2];
    assert c[|c| - 1] == ListCell([]);
    assert UpperAll(Elements(ListCell([]))) == [];
    assert Flatten(ExampleCells[..2]) + [] == Flatten(ExampleCells[..2]);
    assert ["PYTHON", "SQL"] + ["JAVA", "PYTHON", "ANGOL (B2)"] == ["PYTHON", "SQL", "JAVA", "PYTHON", "ANGOL (B2)"];
  }

  /** Only the certificate entry names "ANGOL"; it alone is folded. */
  lemma ExampleNormalizes()
    ensures NormalizeAngol(["PYTHON", "SQL", "JAVA", "PYTHON", "ANGOL (B2)"]) == ["PYTHON", "SQL", "JAVA", "PYTHON", "ANGOL"]
  {
    ContainsNeedsFirstChar("PYTHON", AngolTag);
    ContainsNeedsFirstChar("SQL", AngolTag);
    ContainsNeedsFirstChar("JAVA", AngolTag);
    assert Contains("ANGOL (B2)", AngolTag) by {
      assert StartsWith("ANGOL (B2)", AngolTag);
    }
  }

  /** The example's tech-stack list after folding. */
  const ExampleStack := ["PYTHON", "SQL", "JAVA", "PYTHON", "ANGOL"]

  /** The first three entries are each counted once. */
  lemma ExampleCountsOfThree()
    ensures Counts(ExampleStack[..3]) == map["PYTHON" := 1, "SQL" := 1, "JAVA" := 1]
  {
    var l := ExampleStack;
    assert Counts(l[..1]) == map["PYTHON" := 1] by {
      CountsStep(l[..1]);
      assert l[..1][..0] == [];
    }
    assert Counts(l[..2]) == map["PYTHON" := 1, "SQL" := 1] by {
      CountsStep(l[..2]);
      assert l[..2][..1] == l[..1];
    }
    CountsStep(l[..3]);
    assert l[..3][..2] == l[..2];
  }

  /** PYTHON is counted twice, every other entry once. */
  lemma ExampleCounts()
    ensures Counts(ExampleStack) == map["PYTHON" := 2, "SQL" := 1, "JAVA" := 1, "ANGOL" := 1]
  {
    var l := ExampleStack;
    ExampleCountsOfThree();
    assert Counts(l[..4]) == map["PYTHON" := 2, "SQL" := 1, "JAVA" := 1] by {
      CountsStep(l[..4]);
      assert l[..4][..3] == l[..3];
      assert l[..3][0] == "PYTHON";
    }
    CountsStep(l);
    assert l[..|l| - 1] == l[..4];
  }

  /** The first three entries are all distinct. */
  lemma ExampleDistinctOfThree()
    ensures Distinct(ExampleStack[..3]) == ["PYTHON", "SQL", "JAVA"]
  {
    var l := ExampleStack;
    assert Distinct(l[..1]) == ["PYTHON"] by {
      DistinctStep(l[..1]);
      assert l[..1][..0] == [];
    }
    assert Distinct(l[..2]) == ["PYTHON", "SQL"] by {
      DistinctStep(l[..2]);
      assert l[..2][..1] == l[..1];
    }
    DistinctStep(l[..3]);
    assert l[..3][..2] == l[..2];
  }

  /** The distinct entries, at their first occurrences. */
  lemma ExampleDistinct()
    ensures Distinct(ExampleStack) == ["PYTHON", "SQL", "JAVA", "ANGOL"]
  {
    var l := ExampleStack;
    ExampleDistinctOfThree();
    assert Distinct(l[..4]) == ["PYTHON", "SQL", "JAVA"] by {
      DistinctStep(l[..4]);
      assert l[..4][..3] == l[..3];
      assert l[..3][0] == "PYTHON";
    }
    DistinctStep(l);
    assert l[..|l| - 1] == l[..4];
  }

  /** A count map that reads PYTHON as 2 and SQL, JAVA and ANGOL as 1. */
  predicate ReadsExampleCounts(counts: map<string, nat>) {
    CountOf(counts, "PYTHON") == 2 && CountOf(counts, "SQL") == 1
    && CountOf(counts, "JAVA") == 1 && CountOf(counts, "ANGOL") == 1
  }

  /** The example's counts read as stated. */
  lemma ExampleCountsRead()
    ensures ReadsExampleCounts(map["PYTHON" := 2, "SQL" := 1, "JAVA" := 1, "ANGOL" := 1])
  {
  }

  /** Ranking the first two distinct entries keeps their order. */
  lemma ExampleRankingOfTwo(counts: map<string, nat>)
    requires ReadsExampleCounts(counts)
    ensures Rank(["PYTHON", "SQL"], counts) == ["PYTHON", "SQL"]
  {
    var keys := ["PYTHON", "SQL"];
    assert Rank(["PYTHON"], counts) == ["PYTHON"] by {
      assert ["PYTHON"][..0] == [];
    }
    assert keys[..|keys| - 1] == ["PYTHON"];
    assert InsertByCount(["PYTHON"], "SQL", counts) == ["PYTHON", "SQL"] by {
      assert ["PYTHON"][1..] == [];
    }
  }

  /** Ranking the first three distinct entries keeps their order: PYTHON leads already. */
  lemma ExampleRankingOfThree(counts: map<string, nat>)
    requires ReadsExampleCounts(counts)
    ensures Rank(["PYTHON", "SQL", "JAVA"], counts) == ["PYTHON", "SQL", "JAVA"]
  {
    var keys := ["PYTHON", "SQL", "JAVA"];
    ExampleRankingOfTwo(counts);
    assert keys[..|keys| - 1] == ["PYTHON", "SQL"];
    assert InsertByCount(["SQL"], "JAVA", counts) == ["SQL", "JAVA"] by {
      assert ["SQL"][1..] == [];
    }
    assert InsertByCount(["PYTHON", "SQL"], "JAVA", counts) == ["PYTHON", "SQL", "JAVA"] by {
      assert ["PYTHON", "SQL"][1..] == ["SQL"];
    }
  }

  /** ANGOL, counted once, goes after every entry counted at least once. */
  lemma ExampleInsertAngol(counts: map<string, nat>)
    requires ReadsExampleCounts(counts)
    ensures InsertByCount(["PYTHON", "SQL", "JAVA"], "ANGOL", counts) == ["PYTHON", "SQL", "JAVA", "ANGOL"]
  {
    assert InsertByCount(["JAVA"], "ANGOL", counts) == ["JAVA", "ANGOL"] by {
      assert ["JAVA"][1..] == [];
    }
    assert InsertByCount(["SQL", "JAVA"], "ANGOL", counts) == ["SQL", "JAVA", "ANGOL"] by {
      assert ["SQL", "JAVA"][1..] == ["JAVA"];
    }
    assert ["PYTHON", "SQL", "JAVA"][1..] == ["SQL", "JAVA"];
  }

  /** PYTHON, counted twice, comes first; the entries counted once keep their order. */
  lemma ExampleRanking(counts: map<string, nat>)
    requires ReadsExampleCounts(counts)
    ensures Rank(["PYTHON", "SQL", "JAVA", "ANGOL"], counts) == ["PYTHON", "SQL", "JAVA", "ANGOL"]
  {
    var keys := ["PYTHON", "SQL", "JAVA", "ANGOL"];
    ExampleRankingOfThree(counts);
    ExampleInsertAngol(counts);
    assert keys[..|keys| - 1] == ["PYTHON", "SQL", "JAVA"];
  }

  /**
   * The three-row example: the lists `["Python", "SQL"]`,
   * `["Java", "Python", "Angol (B2)"]` and `[]` give the list
   * PYTHON, SQL, JAVA, PYTHON, ANGOL, with PYTHON counted twice and listed first.
   */
  lemma ThreeRowExample()
    ensures var t := Summarize(ExampleCells);
            t.techStack == ["PYTHON", "SQL", "JAVA", "PYTHON", "ANGOL"]
            && t.counts == map["PYTHON" := 2, "SQL" := 1, "JAVA" := 1, "ANGOL" := 1]
            && t.ranking == ["PYTHON", "SQL", "JAVA", "ANGOL"]
  {
    ExampleFlattens();
    ExampleNormalizes();
    ExampleCounts();
    ExampleDistinct();
    ExampleCountsRead();
    ExampleRanking(map["PYTHON" := 2, "SQL" := 1, "JAVA" := 1, "ANGOL" := 1]);
  }
}
