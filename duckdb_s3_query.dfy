/** `duckdb_s3_query.py`: a fixed template that always sets up the AWS
    extension and credentials, and the checks `main` makes of its arguments
    before it builds the script. */
module DuckDbS3Query {
  import opened Text
  import DuckDbQuery

  /** The reader named by `file_type`: only the exact string `csv` picks the CSV reader. */
  function ReadFunction(fileType: string): (r: string)
    ensures r == "read_csv" <==> fileType == "csv"
    ensures r == "read_parquet" <==> fileType != "csv"
  {
    if fileType == "csv" then "read_csv" else "read_parquet"
  }

  /** `CREATE OR REPLACE TABLE data AS SELECT * FROM `, the head of the table statement. */
  const CreateTablePrefix := "CREATE OR REPLACE TABLE data AS SELECT * FROM "

  /** `create_duckdb_init_script`: the triple-quoted template, line by line,
      with its opening and closing line feeds. */
  function CreateInitScript(fileType: string, s3Uri: string, profileName: string): string {
    var readFunction := ReadFunction(fileType);
    var credentials := "CALL load_aws_credentials('" + profileName + "');";
    var createTable := CreateTablePrefix + readFunction + "('" + s3Uri + "');";
    "\n"
    + "INSTALL aws;" + "\n"
    + "LOAD aws;" + "\n"
    + credentials + "\n"
    + createTable + "\n"
    + ".mode box" + "\n"
    + ".echo on" + "\n"
    + "PRAGMA table_info('data');" + "\n"
  }

  /** The seven statements of the template, in order. */
  function TemplateStatements(fileType: string, s3Uri: string, profileName: string): (r: seq<string>)
    ensures |r| == 7
  {
    [ "INSTALL aws;",
      "LOAD aws;",
      "CALL load_aws_credentials('" + profileName + "');",
      CreateTablePrefix + ReadFunction(fileType) + "('" + s3Uri + "');",
      ".mode box",
      ".echo on",
      "PRAGMA table_info('data');" ]
  }

  /** The template is the seven statements between an empty first line and an
      empty last line, joined by line feeds. */
  lemma TemplateIsJoinedLines(fileType: string, s3Uri: string, profileName: string)
    ensures CreateInitScript(fileType, s3Uri, profileName)
      == Join([""] + TemplateStatements(fileType, s3Uri, profileName) + [""])
  {
    var t := TemplateStatements(fileType, s3Uri, profileName);
    var a, b, c, d, e, f, g := t[0], t[1], t[2], t[3], t[4], t[5], t[6];
    JoinSnoc([""], a);
    assert [""] + [a] == ["", a];
    JoinSnoc(["", a], b);
    assert ["", a] + [b] == ["", a, b];
    JoinSnoc(["", a, b], c);
    assert ["", a, b] + [c] == ["", a, b, c];
    JoinSnoc(["", a, b, c], d);
    assert ["", a, b, c] + [d] == ["", a, b, c, d];
    JoinSnoc(["", a, b, c, d], e);
    assert ["", a, b, c, d] + [e] == ["", a, b, c, d, e];
    JoinSnoc(["", a, b, c, d, e], f);
    assert ["", a, b, c, d, e] + [f] == ["", a, b, c, d, e, f];
    JoinSnoc(["", a, b, c, d, e, f], g);
    assert ["", a, b, c, d, e, f] + [g] == ["", a, b, c, d, e, f, g];
    JoinSnoc(["", a, b, c, d, e, f, g], "");
    assert [""] + t + [""] == ["", a, b, c, d, e, f, g] + [""];
    assert "" + "\n" == "\n";
  }

  /** So the script is a line feed, the seven statements joined by line
      feeds, and a final line feed. */
  lemma TemplateIsFramedJoin(fileType: string, s3Uri: string, profileName: string)
    ensures CreateInitScript(fileType, s3Uri, profileName)
      == "\n" + Join(TemplateStatements(fileType, s3Uri, profileName)) + "\n"
  {
    var t := TemplateStatements(fileType, s3Uri, profileName);
    TemplateIsJoinedLines(fileType, s3Uri, profileName);
    JoinAppend([""], t);
    JoinAppend([""] + t, [""]);
    assert "" + "\n" == "\n";
  }

  /** Whatever the URI, the script begins with a line feed, `INSTALL aws;`,
      `LOAD aws;` and the credential call for the given profile, and it ends
      with a line feed. */
  lemma TemplateAlwaysLoadsAws(fileType: string, s3Uri: string, profileName: string)
    ensures var s := CreateInitScript(fileType, s3Uri, profileName);
      StartsWith(s, "\n" + "INSTALL aws;" + "\n" + "LOAD aws;" + "\n"
                    + "CALL load_aws_credentials('" + profileName + "');" + "\n")
      && s[0] == '\n' && s[|s| - 1] == '\n'
  {
    TemplateShape("INSTALL aws;", "LOAD aws;", "CALL load_aws_credentials('" + profileName + "');",
                  CreateTablePrefix + ReadFunction(fileType) + "('" + s3Uri + "');",
                  ".mode box", ".echo on", "PRAGMA table_info('data');");
  }

  /** The shape of the template for any seven lines: it starts with its
      first four lines and begins and ends with a line feed. */
  lemma TemplateShape(a: string, b: string, c: string, d: string, e: string, f: string, g: string)
    ensures var head := "\n" + a + "\n" + b + "\n" + c + "\n";
      var s := head + d + "\n" + e + "\n" + f + "\n" + g + "\n";
      StartsWith(s, head) && s[0] == '\n' && s[|s| - 1] == '\n'
  {
    var head := "\n" + a + "\n" + b + "\n" + c + "\n";
    var s := head + d + "\n" + e + "\n" + f + "\n" + g + "\n";
    assert s == head + (d + "\n" + e + "\n" + f + "\n" + g + "\n");
    assert s[0] == head[0];
  }

  lemma StatementsHaveNoNewline(fileType: string, s3Uri: string, profileName: string)
    requires NoNewline(s3Uri) && NoNewline(profileName)
    ensures AllNoNewline(TemplateStatements(fileType, s3Uri, profileName))
  {
    DuckDbQuery.PrefixesHaveNoNewline();
    DuckDbQuery.FixedTextHasNoNewline();
    assert CreateTablePrefix == DuckDbQuery.CreateTablePrefix;
  }

  /** When neither the URI nor the profile holds a line feed, splitting the
      script on line feeds gives nine pieces: an empty one, the seven
      statements, and another empty one. */
  lemma TemplateLines(fileType: string, s3Uri: string, profileName: string)
    requires NoNewline(s3Uri) && NoNewline(profileName)
    ensures Split(CreateInitScript(fileType, s3Uri, profileName))
      == [""] + TemplateStatements(fileType, s3Uri, profileName) + [""]
    ensures |Split(CreateInitScript(fileType, s3Uri, profileName))| == 9
  {
    var t := TemplateStatements(fileType, s3Uri, profileName);
    TemplateIsJoinedLines(fileType, s3Uri, profileName);
    StatementsHaveNoNewline(fileType, s3Uri, profileName);
    var lines := [""] + t + [""];
    assert forall k :: 1 <= k < 8 ==> lines[k] == t[k - 1];
    SplitJoin(lines);
  }

  /** Whatever the URI holds, line feeds included, the first four pieces of
      the script split on line feeds are an empty one, `INSTALL aws;`,
      `LOAD aws;` and the credential call, provided the profile holds no line feed. */
  lemma TemplateHeadLines(fileType: string, s3Uri: string, profileName: string)
    requires NoNewline(profileName)
    ensures var pieces := Split(CreateInitScript(fileType, s3Uri, profileName));
      |pieces| >= 4
      && pieces[..4] == ["", "INSTALL aws;", "LOAD aws;", "CALL load_aws_credentials('" + profileName + "');"]
  {
    var t := TemplateStatements(fileType, s3Uri, profileName);
    var l3 := [t[3], t[4], t[5], t[6], ""];
    var l2 := [t[2]] + l3;
    var l1 := [t[1]] + l2;
    var l0 := [t[0]] + l1;
    TemplateIsJoinedLines(fileType, s3Uri, profileName);
    assert [""] + t + [""] == [""] + l0;
    JoinAppend([""], l0);
    JoinAppend([t[0]], l1);
    JoinAppend([t[1]], l2);
    JoinAppend([t[2]], l3);
    DuckDbQuery.PrefixesHaveNoNewline();
    DuckDbQuery.FixedTextHasNoNewline();
    SplitFourLines("", t[0], t[1], t[2], Join(l3));
  }

  /** URI and profile name are embedded verbatim and read back unchanged. */
  lemma ArgumentsEmbeddedVerbatim(fileType: string, s3Uri: string, profileName: string)
    ensures var t := TemplateStatements(fileType, s3Uri, profileName);
      CallArgument("CALL load_aws_credentials", t[2]) == Some(profileName)
      && CallArgument(CreateTablePrefix + ReadFunction(fileType), t[3]) == Some(s3Uri)
  {
    CallArgumentOf("CALL load_aws_credentials", profileName);
    CallArgumentOf(CreateTablePrefix + ReadFunction(fileType), s3Uri);
  }

  /** What `main` makes of `sys.argv`: the usage error, the file-type error,
      or the values it goes on with. */
  datatype Invocation =
    | Usage
    | BadType
    | Ok(fileType: string, s3Uri: string, profileName: string)

  /** The checks at the top of `main`. `argv[0]` is the script name. */
  function ParseArgs(argv: seq<string>): (r: Invocation)
    ensures r.Usage? <==> |argv| < 3
    ensures r.Ok? ==> r.fileType == "csv" || r.fileType == "parquet"
  {
    if |argv| < 3 then Usage
    else
      var fileType := AsciiLower(argv[1]);
      if fileType != "csv" && fileType != "parquet" then BadType
      else Ok(fileType, argv[2], if |argv| > 3 then argv[3] else "default")
  }

  /** The exit status: both errors call `sys.exit(1)`; otherwise `main` returns
      normally, since every failure of the DuckDB process is caught. */
  function ExitStatus(inv: Invocation): (r: int)
    ensures r == 0 || r == 1
    ensures r == 0 <==> inv.Ok?
  {
    if inv.Ok? then 0 else 1
  }

  /** The script `main` writes, if it gets that far. */
  function InitCommands(argv: seq<string>): (r: Option<string>)
    ensures r.Some? <==> ParseArgs(argv).Ok?
  {
    match ParseArgs(argv)
    case Ok(fileType, s3Uri, profileName) => Some(CreateInitScript(fileType, s3Uri, profileName))
    case _ => None
  }

  /** Fewer than three entries: the usage error, exit status 1, no script. */
  lemma ShortArgvIsUsage(argv: seq<string>)
    requires |argv| < 3
    ensures ParseArgs(argv) == Usage && ExitStatus(ParseArgs(argv)) == 1 && InitCommands(argv) == None
  {
  }

  lemma IsLowerFileTypes()
    ensures IsLowerWord("csv") && IsLowerWord("parquet")
  {
  }

  /** An argument vector is accepted exactly when it has at least three
      entries and the file type spells `csv` or `parquet` in any mix of case. */
  lemma AcceptedIff(argv: seq<string>)
    ensures ParseArgs(argv).Ok? <==>
      |argv| >= 3 && (CaseVariant(argv[1], "csv") || CaseVariant(argv[1], "parquet"))
  {
    if |argv| >= 3 {
      IsLowerFileTypes();
      LowerIsWordIff(argv[1], "csv");
      LowerIsWordIff(argv[1], "parquet");
    }
  }

  /** Any other file type is rejected with exit status 1 and no script. */
  lemma BadTypeRejected(argv: seq<string>)
    requires |argv| >= 3 && !CaseVariant(argv[1], "csv") && !CaseVariant(argv[1], "parquet")
    ensures ParseArgs(argv) == BadType && ExitStatus(ParseArgs(argv)) == 1 && InitCommands(argv) == None
  {
    AcceptedIff(argv);
  }

  /** On acceptance: the file type is the lower-cased `argv[1]`, so `csv` or
      `parquet`; the URI is `argv[2]`; the profile is `argv[3]` if given and
      `default` otherwise; the exit status is 0 and the script is built from these. */
  lemma AcceptedValues(argv: seq<string>)
    requires ParseArgs(argv).Ok?
    ensures var inv := ParseArgs(argv);
      && inv.fileType == AsciiLower(argv[1])
      && (inv.fileType == "csv" || inv.fileType == "parquet")
      && inv.s3Uri == argv[2]
      && inv.profileName == (if |argv| > 3 then argv[3] else "default")
      && ExitStatus(inv) == 0
      && InitCommands(argv) == Some(CreateInitScript(inv.fileType, inv.s3Uri, inv.profileName))
  {
  }

  /** `CSV` is accepted and becomes `csv`. */
  lemma UpperCaseCsvAccepted(program: string, s3Uri: string)
    ensures ParseArgs([program, "CSV", s3Uri]) == Ok("csv", s3Uri, "default")
  {
    assert AsciiLower("CSV") == "csv";
  }

  /** Entries after the profile make no difference. */
  lemma ExtraArgumentsIgnored(argv: seq<string>, extra: seq<string>)
    requires |argv| >= 4
    ensures ParseArgs(argv + extra) == ParseArgs(argv)
  {
    var all := argv + extra;
    assert all[1] == argv[1] && all[2] == argv[2] && all[3] == argv[3];
  }
}
