/** The expert council (app/core/council.py): a category is guessed from the query, up to
    `n` leaderboard models that are likely served are chosen as experts, each expert is
    consulted, and the first expert synthesizes their answers.

    Reading the leaderboard CSV and the provider-status JSON, pandas' sorting, the score
    formatting and the model calls are not modelled: their results are parameters. */
module Council {
  import opened Wrappers
  import opened Text
  import opened Providers

  // ---------------------------------------------------------------------------
  // Query category and expert role

  const CodingWords := ["code", "function", "script"]
  const MathWords := ["calculate", "solve", "math"]
  const UncensoredWords := ["sex", "nsfw", "uncensored", "jailbreak"]
  const ReasoningWords := ["reason", "logic"]

  /** Some word of the list occurs in `s`. */
  predicate Mentions(s: string, words: seq<string>) {
    exists w :: w in words && Contains(s, w)
  }

  /** The category `run_council_stream` derives from the lower-cased query: the first
      keyword group, in priority order, with a word in the query. */
  function Category(query: string): (c: string)
    ensures c in {"coding", "math", "uncensored", "reasoning", "overall"}
    ensures c == "coding" <==> Mentions(Lower(query), CodingWords)
    ensures c == "math" <==> !Mentions(Lower(query), CodingWords) && Mentions(Lower(query), MathWords)
    ensures c == "uncensored" <==>
      && !Mentions(Lower(query), CodingWords) && !Mentions(Lower(query), MathWords)
      && Mentions(Lower(query), UncensoredWords)
    ensures c == "reasoning" <==>
      && !Mentions(Lower(query), CodingWords) && !Mentions(Lower(query), MathWords)
      && !Mentions(Lower(query), UncensoredWords) && Mentions(Lower(query), ReasoningWords)
    ensures c == "overall" <==>
      && !Mentions(Lower(query), CodingWords) && !Mentions(Lower(query), MathWords)
      && !Mentions(Lower(query), UncensoredWords) && !Mentions(Lower(query), ReasoningWords)
  {
    var q := Lower(query);
    if Mentions(q, CodingWords) then "coding"
    else if Mentions(q, MathWords) then "math"
    else if Mentions(q, UncensoredWords) then "uncensored"
    else if Mentions(q, ReasoningWords) then "reasoning"
    else "overall"
  }

  /** Queries that agree once lower-cased fall in the same category. */
  lemma CategoryIgnoresCase(a: string, b: string)
    requires Lower(a) == Lower(b)
    ensures Category(a) == Category(b)
  {
  }

  /** The role prefix `get_best_models` gives every selected expert. */
  function Role(category: string): string {
    if Contains(category, "coding") then "Senior Engineer"
    else if Contains(category, "reasoning") then "Logician"
    else if Contains(category, "uncensored") then "Unfiltered Analyst"
    else "General Expert"
  }

  lemma {:induction false} NotContainsShort(s: string, word: string)
    requires |s| < |word|
    ensures !Contains(s, word)
    decreases |s|
  {
    if |s| > 0 {
      NotContainsShort(s[1..], word);
    }
  }

  /** A word with a character that `s` lacks does not occur in `s`. */
  lemma {:induction false} NotContainsMissingChar(s: string, word: string, p: int)
    requires 0 <= p < |word| && forall i :: 0 <= i < |s| ==> s[i] != word[p]
    ensures !Contains(s, word)
    decreases |s|
  {
    assert |word| <= |s| ==> s[..|word|][p] == s[p];
    if |s| > 0 {
      NotContainsMissingChar(s[1..], word, p);
    }
  }

  lemma ContainsSelf(s: string)
    ensures Contains(s, s)
  {
    assert StartsWith(s, s);
  }

  /** Coding queries are answered by senior engineers. */
  lemma CodingRole(c: string)
    requires c == "coding"
    ensures Role(c) == "Senior Engineer"
  {
    ContainsSelf(c);
  }

  /** Reasoning queries are answered by logicians. */
  lemma ReasoningRole(c: string)
    requires c == "reasoning"
    ensures Role(c) == "Logician"
  {
    NotContainsMissingChar(c, "coding", 0);
    ContainsSelf(c);
  }

  /** Uncensored queries are answered by unfiltered analysts. */
  lemma UncensoredRole(c: string)
    requires c == "uncensored"
    ensures Role(c) == "Unfiltered Analyst"
  {
    NotContainsMissingChar(c, "coding", 3);
    NotContainsMissingChar(c, "reasoning", 2);
    ContainsSelf(c);
  }

  /** Math and overall queries get no special role. */
  lemma GeneralRole(c: string)
    requires c == "math" || c == "overall"
    ensures Role(c) == "General Expert"
  {
    if c == "math" {
      NotContainsShort(c, "coding");
      NotContainsShort(c, "reasoning");
      NotContainsShort(c, "uncensored");
    } else {
      NotContainsMissingChar(c, "coding", 0);
      NotContainsShort(c, "reasoning");
      NotContainsShort(c, "uncensored");
    }
  }

  // ---------------------------------------------------------------------------
  // Provider status (`get_available_providers`)

  /** One record of the provider-status file; `None` is a missing key (or, for the
      name, a value that is not a string). */
  datatype StatusEntry = StatusEntry(name: Option<string>, status: Option<string>)

  datatype StatusFile =
    | NoStatus            // the tracker has not run: the file does not exist
    | StatusUnreadable    // reading, parsing or walking the records raised
    | Entries(entries: seq<StatusEntry>)

  const AssumedUp: seq<Option<string>> := [Some("G4F Local"), Some("OpenRouter")]

  /** The names of the providers marked UP, in file order, or the assumed pair. */
  function UpProviders(f: StatusFile): (up: seq<Option<string>>)
    ensures !f.Entries? ==> up == AssumedUp
    ensures f.Entries? ==> |up| <= |f.entries|
    ensures f.Entries? ==>
      forall e :: e in f.entries && e.status == Some("UP") ==> e.name in up
    ensures f.Entries? ==>
      forall u :: u in up ==> exists e :: e in f.entries && e.status == Some("UP") && e.name == u
    ensures f.Entries? && |f.entries| == 1 ==>
      up == if f.entries[0].status == Some("UP") then [f.entries[0].name] else []
    decreases if f.Entries? then |f.entries| else 0
  {
    match f
    case NoStatus => AssumedUp
    case StatusUnreadable => AssumedUp
    case Entries(es) =>
      if |es| == 0 then []
      else
        var rest := UpProviders(Entries(es[1..]));
        assert forall e :: e in es[1..] ==> e in es;
        if es[0].status == Some("UP") then [es[0].name] + rest else rest
  }

  /** The records are read in file order: the UP names of `a + b` are those of `a`, then
      those of `b`. With the one-record case this fixes the order and repetitions. */
  lemma {:induction false} UpProvidersAppend(a: seq<StatusEntry>, b: seq<StatusEntry>)
    ensures UpProviders(Entries(a + b)) == UpProviders(Entries(a)) + UpProviders(Entries(b))
    decreases |a|
  {
    if |a| > 0 {
      var head := if a[0].status == Some("UP") then [a[0].name] else [];
      assert (a + b)[0] == a[0];
      assert (a + b)[1..] == a[1..] + b;
      assert UpProviders(Entries(a + b)) == head + UpProviders(Entries(a[1..] + b));
      assert UpProviders(Entries(a)) == head + UpProviders(Entries(a[1..]));
      UpProvidersAppend(a[1..], b);
      assert head + (UpProviders(Entries(a[1..])) + UpProviders(Entries(b)))
          == (head + UpProviders(Entries(a[1..]))) + UpProviders(Entries(b));
    } else {
      assert a + b == b;
    }
  }

  // ---------------------------------------------------------------------------
  // Availability of a model

  /** A model family and the providers believed to serve it. */
  datatype Family = Family(key: string, providers: seq<string>)

  /** `MODEL_PROVIDER_MAP`, in its order. */
  const ModelProviderMap := [
    Family("llama", ["Groq", "Cerebras", "OpenRouter", "G4F Local"]),
    Family("mixtral", ["Groq", "OpenRouter", "G4F Local"]),
    Family("gemma", ["Groq", "OpenRouter"]),
    Family("claude", ["OpenRouter", "G4F Local"]),
    Family("gpt", ["OpenRouter", "G4F Local"]),
    Family("deepseek", ["OpenRouter", "G4F Local", "Groq"])
  ]

  /** Some provider of the family is named, case-insensitively, inside `up`. */
  predicate Serves(fam: Family, up: string) {
    exists prov :: prov in fam.providers && Contains(Lower(up), Lower(prov))
  }

  /** The inner scan over the UP names for one family: `Some(true)` at the first name
      that serves it, `None` when a missing name is reached first (`.lower()` on `None`
      raises). */
  function ScanUp(fam: Family, up: seq<Option<string>>): (r: Option<bool>)
    ensures r == Some(true) ==> exists j :: 0 <= j < |up| && up[j].Some? && Serves(fam, up[j].value)
    ensures r == Some(false) ==> forall j :: 0 <= j < |up| ==> up[j].Some? && !Serves(fam, up[j].value)
    ensures r.None? ==> exists j :: 0 <= j < |up| && up[j].None?
    decreases |up|
  {
    if |up| == 0 then Some(false)
    else if up[0].None? then None
    else if Serves(fam, up[0].value) then Some(true)
    else
      var r := ScanUp(fam, up[1..]);
      assert forall j :: 1 <= j < |up| ==> up[j] == up[1..][j - 1];
      r
  }

  /** The outer scan over the families whose key occurs in the lower-cased model name. */
  function ScanFamilies(fams: seq<Family>, model: string, up: seq<Option<string>>): (r: Option<bool>)
    decreases |fams|
  {
    if |fams| == 0 then Some(false)
    else if Contains(Lower(model), fams[0].key) then
      match ScanUp(fams[0], up)
      case None => None
      case Some(true) => Some(true)
      case Some(false) => ScanFamilies(fams[1..], model, up)
    else ScanFamilies(fams[1..], model, up)
  }

  /** The availability test of `get_best_models`: a served family, or else a score above
      50; `None` when the test raised. */
  function Availability(model: string, score: real, up: seq<Option<string>>): Option<bool> {
    match ScanFamilies(ModelProviderMap, model, up)
    case None => None
    case Some(b) => Some(b || score > 50.0)
  }

  /** Every UP name is a string. */
  predicate NamesPresent(up: seq<Option<string>>) {
    forall j :: 0 <= j < |up| ==> up[j].Some?
  }

  /** The availability rule as stated: some family whose key occurs in the model name
      has a provider named inside some UP name, or the score exceeds 50. */
  predicate Available(model: string, score: real, up: seq<Option<string>>) {
    || (exists f, j :: f in ModelProviderMap && 0 <= j < |up| && up[j].Some?
                       && Contains(Lower(model), f.key) && Serves(f, up[j].value))
    || score > 50.0
  }

  lemma {:induction false} ScanFamiliesExists(fams: seq<Family>, model: string, up: seq<Option<string>>)
    requires NamesPresent(up)
    ensures ScanFamilies(fams, model, up) ==
      Some(exists f, j :: f in fams && 0 <= j < |up| && up[j].Some?
                          && Contains(Lower(model), f.key) && Serves(f, up[j].value))
    decreases |fams|
  {
    if |fams| > 0 {
      ScanFamiliesExists(fams[1..], model, up);
      assert forall f :: f in fams <==> f == fams[0] || f in fams[1..];
    }
  }

  /** With every UP name present, the scans never raise and decide exactly the rule. */
  lemma AvailabilityMatchesRule(model: string, score: real, up: seq<Option<string>>)
    requires NamesPresent(up)
    ensures Availability(model, score, up) == Some(Available(model, score, up))
  {
    ScanFamiliesExists(ModelProviderMap, model, up);
  }

  /** A missing UP name is the only way the test raises. */
  lemma {:induction false} AvailabilityRaisesOnlyOnMissingName(fams: seq<Family>, model: string, up: seq<Option<string>>)
    requires ScanFamilies(fams, model, up).None?
    ensures exists j :: 0 <= j < |up| && up[j].None?
    decreases |fams|
  {
    if |fams| > 0 {
      if Contains(Lower(model), fams[0].key) && ScanUp(fams[0], up).None? {
      } else {
        AvailabilityRaisesOnlyOnMissingName(fams[1..], model, up);
      }
    }
  }

  // ---------------------------------------------------------------------------
  // Expert selection (`get_best_models`)

  /** A leaderboard row after the score column is chosen. */
  datatype Row = Row(model: string, score: real)

  /** A council member: the model and its role label. */
  datatype Expert = Expert(model: string, role: string)

  /** The label of a selected expert; `scoreText` is the `{score:.1f}` formatting. */
  function Label(category: string, score: real, scoreText: real -> string): string {
    Role(category) + " (Score: " + scoreText(score) + ")"
  }

  /** The largest list the loop can return: `n`, but at least one, because the length
      test follows the append. */
  function Cap(n: int): nat {
    if n < 1 then 1 else n
  }

  /** The rows the rule admits, in order. */
  function AdmittedRows(rows: seq<Row>, up: seq<Option<string>>): (out: seq<Row>)
    ensures |out| <= |rows|
    decreases |rows|
  {
    if |rows| == 0 then []
    else
      var rest := AdmittedRows(rows[1..], up);
      if Available(rows[0].model, rows[0].score, up) then [rows[0]] + rest else rest
  }

  /** Only available rows are admitted, and each comes from the ranking. */
  lemma {:induction false} AdmittedOnlyAvailable(rows: seq<Row>, up: seq<Option<string>>)
    ensures forall x :: x in AdmittedRows(rows, up) ==> x in rows && Available(x.model, x.score, up)
    decreases |rows|
  {
    if |rows| > 0 {
      AdmittedOnlyAvailable(rows[1..], up);
    }
  }

  lemma {:induction false} AdmittedRowsAppend(a: seq<Row>, b: seq<Row>, up: seq<Option<string>>)
    ensures AdmittedRows(a + b, up) == AdmittedRows(a, up) + AdmittedRows(b, up)
    decreases |a|
  {
    if |a| == 0 {
      assert a + b == b;
    } else {
      assert (a + b)[1..] == a[1..] + b;
      AdmittedRowsAppend(a[1..], b, up);
    }
  }

  function ExpertsOf(rows: seq<Row>, category: string, scoreText: real -> string): (es: seq<Expert>)
    ensures |es| == |rows|
    ensures forall k :: 0 <= k < |rows| ==> es[k] == Expert(rows[k].model, Label(category, rows[k].score, scoreText))
  {
    seq(|rows|, k requires 0 <= k < |rows| => Expert(rows[k].model, Label(category, rows[k].score, scoreText)))
  }

  /** The experts the selection loop is meant to produce: the first `n` admitted rows,
      or, when `n < 1`, the first row if it is admitted. */
  function Intended(rows: seq<Row>, category: string, n: int, up: seq<Option<string>>,
                    scoreText: real -> string): seq<Expert>
  {
    if n >= 1 then
      var adm := AdmittedRows(rows, up);
      ExpertsOf(if |adm| <= n then adm else adm[..n], category, scoreText)
    else ExpertsOf(AdmittedRows(if |rows| == 0 then [] else rows[..1], up), category, scoreText)
  }

  lemma AdmittedStep(rows: seq<Row>, k: int, up: seq<Option<string>>)
    requires 0 <= k < |rows|
    ensures AdmittedRows(rows[..k + 1], up) ==
      AdmittedRows(rows[..k], up) + (if Available(rows[k].model, rows[k].score, up) then [rows[k]] else [])
  {
    assert rows[..k + 1] == rows[..k] + [rows[k]];
    AdmittedRowsAppend(rows[..k], [rows[k]], up);
    assert [rows[k]][1..] == [];
  }

  lemma ExpertsOfAppend(a: seq<Row>, b: seq<Row>, category: string, scoreText: real -> string)
    ensures ExpertsOf(a + b, category, scoreText) == ExpertsOf(a, category, scoreText) + ExpertsOf(b, category, scoreText)
  {
  }

  /** The loop of `get_best_models` over the ranked rows: a row is kept when it is
      available, and the loop stops once `n` experts are kept. `None` when an
      availability test raised. */
  method TopModels(rows: seq<Row>, category: string, n: int, up: seq<Option<string>>,
                   scoreText: real -> string) returns (r: Option<seq<Expert>>)
    ensures r.Some? ==> |r.value| <= Cap(n)
    ensures r.Some? ==> forall e :: e in r.value ==> StartsWith(e.role, Role(category))
    ensures r.None? ==> exists j :: 0 <= j < |up| && up[j].None?
    ensures NamesPresent(up) ==> r == Some(Intended(rows, category, n, up, scoreText))
  {
    var selected: seq<Expert> := [];
    ghost var kept: seq<Row> := [];
    var k := 0;
    while k < |rows|
      invariant 0 <= k <= |rows|
      invariant selected == ExpertsOf(kept, category, scoreText)
      invariant |kept| <= k
      invariant k > 0 ==> |kept| < n
      invariant NamesPresent(up) ==> kept == AdmittedRows(rows[..k], up)
    {
      var row := rows[k];
      var avail := Availability(row.model, row.score, up);
      if avail.None? {
        AvailabilityRaisesOnlyOnMissingName(ModelProviderMap, row.model, up);
        return None;
      }
      KeepStep(rows, k, up, avail.value);
      if avail.value {
        ExpertsOfAppend(kept, [row], category, scoreText);
        selected := selected + [Expert(row.model, Label(category, row.score, scoreText))];
        kept := kept + [row];
        assert selected == ExpertsOf(kept, category, scoreText);
      }
      k := k + 1;
      assert NamesPresent(up) ==> kept == AdmittedRows(rows[..k], up);
      if |selected| >= n {
        assert selected == ExpertsOf(kept, category, scoreText);
        StopFacts(rows, k, category, n, up, scoreText, kept);
        return Some(selected);
      }
    }
    assert rows[..k] == rows;
    EndFacts(rows, category, n, up, scoreText, kept);
    return Some(selected);
  }

  /** What the selection returns when it stops at `n` experts after `k` rows. */
  lemma StopFacts(rows: seq<Row>, k: int, category: string, n: int, up: seq<Option<string>>,
                  scoreText: real -> string, kept: seq<Row>)
    requires 1 <= k <= |rows| && n <= |kept| <= k
    requires k > 1 ==> |kept| <= n
    requires n < 1 ==> k == 1
    requires NamesPresent(up) ==> kept == AdmittedRows(rows[..k], up)
    requires NamesPresent(up) && n >= 1 ==> |AdmittedRows(rows[..k - 1], up)| < n
    ensures var es := ExpertsOf(kept, category, scoreText);
      && |es| <= Cap(n)
      && (forall e :: e in es ==> StartsWith(e.role, Role(category)))
      && (NamesPresent(up) ==> es == Intended(rows, category, n, up, scoreText))
  {
    LabelsOfExperts(kept, category, scoreText);
    if NamesPresent(up) {
      IntendedAtStop(rows, k, category, n, up, scoreText);
    }
  }

  /** What the selection returns when it runs out of rows first. */
  lemma EndFacts(rows: seq<Row>, category: string, n: int, up: seq<Option<string>>,
                 scoreText: real -> string, kept: seq<Row>)
    requires |kept| <= |rows| && (|rows| > 0 ==> |kept| < n)
    requires NamesPresent(up) ==> kept == AdmittedRows(rows, up)
    ensures var es := ExpertsOf(kept, category, scoreText);
      && |es| <= Cap(n)
      && (forall e :: e in es ==> StartsWith(e.role, Role(category)))
      && (NamesPresent(up) ==> es == Intended(rows, category, n, up, scoreText))
  {
    LabelsOfExperts(kept, category, scoreText);
    if NamesPresent(up) {
      IntendedAtEnd(rows, category, n, up, scoreText);
    }
  }

  /** When the loop runs out of rows before reaching `n` experts, it kept every
      admitted row. */
  lemma IntendedAtEnd(rows: seq<Row>, category: string, n: int, up: seq<Option<string>>,
                      scoreText: real -> string)
    requires |rows| > 0 ==> |AdmittedRows(rows, up)| < n
    ensures ExpertsOf(AdmittedRows(rows, up), category, scoreText) == Intended(rows, category, n, up, scoreText)
  {
  }

  /** Row `k`'s availability verdict extends the admitted prefix accordingly. */
  lemma KeepStep(rows: seq<Row>, k: int, up: seq<Option<string>>, verdict: bool)
    requires 0 <= k < |rows|
    requires Availability(rows[k].model, rows[k].score, up) == Some(verdict)
    ensures NamesPresent(up) ==>
      AdmittedRows(rows[..k + 1], up) == AdmittedRows(rows[..k], up) + (if verdict then [rows[k]] else [])
  {
    if NamesPresent(up) {
      AvailabilityMatchesRule(rows[k].model, rows[k].score, up);
      AdmittedStep(rows, k, up);
    }
  }

  /** Every selected expert's label starts with the category's role. */
  lemma LabelsOfExperts(kept: seq<Row>, category: string, scoreText: real -> string)
    ensures forall e :: e in ExpertsOf(kept, category, scoreText) ==> StartsWith(e.role, Role(category))
  {
    forall e | e in ExpertsOf(kept, category, scoreText)
      ensures StartsWith(e.role, Role(category))
    {
      var j :| 0 <= j < |kept| && ExpertsOf(kept, category, scoreText)[j] == e;
      LabelStartsWithRole(category, kept[j].score, scoreText);
    }
  }

  lemma LabelStartsWithRole(category: string, score: real, scoreText: real -> string)
    ensures StartsWith(Label(category, score, scoreText), Role(category))
  {
    var l := Label(category, score, scoreText);
    assert l[..|Role(category)|] == Role(category);
  }

  /** When the loop stops after row `k - 1`, having reached `n` experts, the rows after
      it do not matter. */
  lemma IntendedAtStop(rows: seq<Row>, k: int, category: string, n: int, up: seq<Option<string>>,
                       scoreText: real -> string)
    requires 1 <= k <= |rows|
    requires |AdmittedRows(rows[..k], up)| >= n
    requires n >= 1 ==> |AdmittedRows(rows[..k - 1], up)| < n
    requires n < 1 ==> k == 1
    ensures ExpertsOf(AdmittedRows(rows[..k], up), category, scoreText) == Intended(rows, category, n, up, scoreText)
  {
    if n >= 1 {
      var prefix := AdmittedRows(rows[..k], up);
      assert rows == rows[..k] + rows[k..];
      AdmittedRowsAppend(rows[..k], rows[k..], up);
      AdmittedStep(rows, k - 1, up);
      assert |prefix| <= |AdmittedRows(rows[..k - 1], up)| + 1;
      assert |prefix| == n;
      var adm := AdmittedRows(rows, up);
      assert adm == prefix + AdmittedRows(rows[k..], up);
      assert adm[..n] == prefix;
    }
  }

  /** The three experts used when nothing can be selected. */
  const DefaultExperts := [
    Expert("gpt-4o", "Fallback Expert 1"),
    Expert("claude-3-opus", "Fallback Expert 2"),
    Expert("llama-3-70b-instruct", "Fallback Expert 3")
  ]

  /** The leaderboard as read: `ranked(col)` is the table sorted by column `col`,
      descending, without the rows whose `col` score is missing. */
  datatype Leaderboard =
    | NoCsv
    | Unreadable
    | Table(columns: set<string>, ranked: string -> seq<Row>)

  /** The column holding the model names. */
  const ModelColumn := "model"

  /** The score column: the category's when the table has one, else `overall`. */
  function TargetColumn(category: string, columns: set<string>): (col: string)
    ensures col == category || col == "overall"
    ensures col == category <==> category in columns || category == "overall"
  {
    if category in columns then category else "overall"
  }

  /** `get_best_models(category, n)`. */
  method BestModels(board: Leaderboard, status: StatusFile, category: string, n: int,
                    scoreText: real -> string) returns (experts: seq<Expert>)
    ensures |experts| > 0
    ensures experts == DefaultExperts || (|experts| <= Cap(n) && forall e :: e in experts ==> StartsWith(e.role, Role(category)))
    ensures !board.Table? ==> experts == DefaultExperts
    ensures board.Table? && TargetColumn(category, board.columns) !in board.columns ==> experts == DefaultExperts
    ensures board.Table? && ModelColumn !in board.columns ==> experts == DefaultExperts
    ensures board.Table? && TargetColumn(category, board.columns) in board.columns && ModelColumn in board.columns
            && NamesPresent(UpProviders(status)) ==>
      var chosen := Intended(board.ranked(TargetColumn(category, board.columns)), category, n, UpProviders(status), scoreText);
      experts == if |chosen| == 0 then DefaultExperts else chosen
  {
    if !board.Table? {
      return DefaultExperts;
    }
    var col := TargetColumn(category, board.columns);
    if col !in board.columns {
      // the sort raises a KeyError, which the handler turns into the defaults
      return DefaultExperts;
    }
    if ModelColumn !in board.columns {
      // `row["model"]` raises a KeyError at the first row, which the handler turns into
      // the defaults; without rows nothing is selected, which gives them too
      return DefaultExperts;
    }
    var rows := board.ranked(col);
    var up := UpProviders(status);
    var picked := TopModels(rows, category, n, up, scoreText);
    if picked.None? || |picked.value| == 0 {
      return DefaultExperts;
    }
    return picked.value;
  }

  // ---------------------------------------------------------------------------
  // The council run (`run_council_stream`)

  /** What consulting one expert produced. */
  datatype Reply = Answered(text: string) | FailedWith(err: string)

  /** The transcript section of one expert. */
  function Section(e: Expert, reply: Reply): (s: string)
    ensures StartsWith(s, "### Expert: " + e.role + " (" + e.model + ")\n")
    ensures reply.Answered? ==> s == "### Expert: " + e.role + " (" + e.model + ")\n" + reply.text + "\n"
    ensures reply.FailedWith? ==>
      s == "### Expert: " + e.role + " (" + e.model + ")\n" + "[Failed to respond: " + reply.err + "]\n"
  {
    var head := "### Expert: " + e.role + " (" + e.model + ")\n";
    var body := match reply
      case Answered(text) => text
      case FailedWith(err) => "[Failed to respond: " + err + "]";
    assert (head + body + "\n")[..|head|] == head;
    head + body + "\n"
  }

  const ChairInstructions :=
    "You are the Council Chairperson. Synthesize the above responses into a single, authoritative answer. "
    + "Point out any consensus or disagreement among the experts. "
    + "Ensure the final answer uses the best information provided."

  /** The events of a council run; status messages stand for their JSON `data:` frames. */
  datatype CouncilEvent = Status(message: string) | Raw(chunk: string) | Done

  /** The events the caller receives, and the error the run ends with, if any. */
  datatype CouncilRun = CouncilRun(events: seq<CouncilEvent>, raised: Option<string>)

  /** The transcript sections of all experts, in council order. */
  function Sections(experts: seq<Expert>, consult: nat -> Reply): (ss: seq<string>)
    ensures |ss| == |experts|
    ensures forall k :: 0 <= k < |experts| ==> ss[k] == Section(experts[k], consult(k))
  {
    seq(|experts|, k requires 0 <= k < |experts| => Section(experts[k], consult(k)))
  }

  const QueryHeading := "User Query: "
  const ResponsesHeading := "\n\nCouncil Responses:\n"

  function SynthesisPrompt(query: string, transcript: string): string {
    QueryHeading + query + ResponsesHeading + transcript + "\n\n" + ChairInstructions
  }

  function ModelNames(experts: seq<Expert>): (names: seq<string>)
    ensures |names| == |experts|
    ensures forall k :: 0 <= k < |experts| ==> names[k] == experts[k].model
  {
    seq(|experts|, k requires 0 <= k < |experts| => experts[k].model)
  }

  function RawEvents(chunks: seq<string>): (evs: seq<CouncilEvent>)
    ensures |evs| == |chunks|
    ensures forall k :: 0 <= k < |chunks| ==> evs[k] == Raw(chunks[k])
  {
    seq(|chunks|, k requires 0 <= k < |chunks| => Raw(chunks[k]))
  }

  /** The four status events announced before the synthesis streams. */
  function StatusEvents(query: string, experts: seq<Expert>): (head: seq<CouncilEvent>)
    ensures |head| == 4 && forall k :: 0 <= k < 4 ==> head[k].Status?
  {
    [
      Status(SelectingPrefix + Category(query) + SelectingSuffix),
      Status(ConvenedPrefix + Join(ModelNames(experts), ", ")),
      Status(ConsultingMessage),
      Status(SynthesizingMessage)
    ]
  }

  const SelectingPrefix := "Selecting best models for "
  const SelectingSuffix := " from leaderboard..."
  const ConvenedPrefix := "Council convened: "
  const ConsultingMessage := "Consulting experts in parallel..."
  const SynthesizingMessage := "Synthesizing council consensus..."

  /** `run_council_stream(query)` over the experts `get_best_models` chose (never empty):
      `consult(k)` is what expert `k` produced, `synth(model, prompt)` the synthesis
      stream. The synthesis chunks are passed on as they come. */
  function CouncilStream(query: string, experts: seq<Expert>, consult: nat -> Reply,
                         synth: (string, string) -> Attempt): CouncilRun
    requires |experts| > 0
  {
    var transcript := Join(Sections(experts, consult), "\n");
    var out := synth(experts[0].model, SynthesisPrompt(query, transcript));
    Finish(StatusEvents(query, experts), out)
  }

  /** The run after the status events `head`: the synthesis chunks, then the end marker
      or the synthesis error. */
  function Finish(head: seq<CouncilEvent>, out: Attempt): CouncilRun {
    match out
    case Completes(chunks) => CouncilRun(head + RawEvents(chunks) + [Done], None)
    case FailsAfter(chunks, err) => CouncilRun(head + RawEvents(chunks), Some(err))
  }

  lemma FinishShape(head: seq<CouncilEvent>, out: Attempt)
    requires |head| == 4 && forall k :: 0 <= k < 4 ==> head[k].Status?
    ensures var run := Finish(head, out);
      && |run.events| == 4 + |out.frags| + (if out.Completes? then 1 else 0)
      && (forall k :: 0 <= k < 4 ==> run.events[k].Status?)
      && (forall k :: 0 <= k < |out.frags| ==> run.events[4 + k] == Raw(out.frags[k]))
      && (run.raised.None? <==> out.Completes?)
      && (out.Completes? ==> run.events[|run.events| - 1] == Done)
      && (out.FailsAfter? ==> run.raised == Some(out.err) && Done !in run.events)
  {
    var raw := RawEvents(out.frags);
    var run := Finish(head, out);
    var body := head + raw;
    assert forall k :: 0 <= k < 4 ==> body[k] == head[k];
    assert forall k :: 0 <= k < |raw| ==> body[4 + k] == raw[k];
    if out.Completes? {
      assert run.events == body + [Done];
      assert forall k :: 0 <= k < |body| ==> run.events[k] == body[k];
    } else {
      assert run.events == body;
      assert Done !in head by {
        assert head[0].Status? && head[1].Status? && head[2].Status? && head[3].Status?;
      }
      assert Done !in raw by {
        forall k | 0 <= k < |raw|
          ensures raw[k] != Done
        {
          assert raw[k] == Raw(out.frags[k]);
        }
      }
    }
  }

  /** A council run: four status events, then every synthesis chunk in order, then the
      end marker exactly when the synthesis completed; a failed synthesis ends the run
      with its error. The synthesizer is the first expert. */
  lemma CouncilStreamShape(query: string, experts: seq<Expert>, consult: nat -> Reply,
                           synth: (string, string) -> Attempt)
    requires |experts| > 0
    ensures var run := CouncilStream(query, experts, consult, synth);
      var out := synth(experts[0].model, SynthesisPrompt(query, Join(Sections(experts, consult), "\n")));
      && |run.events| == 4 + |out.frags| + (if out.Completes? then 1 else 0)
      && (forall k :: 0 <= k < 4 ==> run.events[k].Status?)
      && (forall k :: 0 <= k < |out.frags| ==> run.events[4 + k] == Raw(out.frags[k]))
      && (run.raised.None? <==> out.Completes?)
      && (out.Completes? ==> run.events[|run.events| - 1] == Done)
      && (out.FailsAfter? ==> run.raised == Some(out.err) && Done !in run.events)
  {
    var out := synth(experts[0].model, SynthesisPrompt(query, Join(Sections(experts, consult), "\n")));
    FinishShape(StatusEvents(query, experts), out);
  }

  /** The synthesis prompt carries every expert's section, failed ones included. */
  lemma SynthesisSeesEveryExpert(query: string, experts: seq<Expert>, consult: nat -> Reply, k: int)
    requires 0 <= k < |experts|
    ensures Contains(SynthesisPrompt(query, Join(Sections(experts, consult), "\n")), Section(experts[k], consult(k)))
  {
    var ss := Sections(experts, consult);
    var transcript := Join(ss, "\n");
    JoinContainsPart(ss, "\n", k);
    var pre := QueryHeading + query + ResponsesHeading;
    var post := "\n\n" + ChairInstructions;
    assert StartsWith(transcript + post, transcript) by {
      assert (transcript + post)[..|transcript|] == transcript;
    }
    ContainsOfPrefix(transcript + post, transcript, ss[k]);
    ContainsAfter(pre, transcript + post, ss[k]);
    assert SynthesisPrompt(query, transcript) == pre + (transcript + post);
  }

  /** `run_council_stream(query)` from the start: the category of the query, the three
      best experts for it (`get_best_models(category, n=3)`), then the council run over
      them. The first status event names the category. */
  method RunCouncil(query: string, board: Leaderboard, status: StatusFile, scoreText: real -> string,
                    consult: nat -> Reply, synth: (string, string) -> Attempt)
    returns (experts: seq<Expert>, run: CouncilRun)
    ensures |experts| > 0
    ensures experts == DefaultExperts
            || (|experts| <= 3 && forall e :: e in experts ==> StartsWith(e.role, Role(Category(query))))
    ensures !board.Table? || ModelColumn !in board.columns ==> experts == DefaultExperts
    ensures var category := Category(query);
      board.Table? && TargetColumn(category, board.columns) in board.columns && ModelColumn in board.columns
      && NamesPresent(UpProviders(status)) ==>
        var chosen := Intended(board.ranked(TargetColumn(category, board.columns)), category, 3, UpProviders(status), scoreText);
        experts == if |chosen| == 0 then DefaultExperts else chosen
    ensures run == CouncilStream(query, experts, consult, synth)
    ensures |run.events| > 0 && run.events[0] == Status(SelectingPrefix + Category(query) + SelectingSuffix)
    ensures var out := synth(experts[0].model, SynthesisPrompt(query, Join(Sections(experts, consult), "\n")));
      run.raised.None? <==> out.Completes?
  {
    var category := Category(query);
    experts := BestModels(board, status, category, 3, scoreText);
    run := CouncilStream(query, experts, consult, synth);
    CouncilStreamShape(query, experts, consult, synth);
    assert run.events[0] == StatusEvents(query, experts)[0];
  }
}
