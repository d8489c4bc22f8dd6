/** `queryfile/duckdb_s3_query.py`, a second copy of `duckdb_s3_query.py`.
    Its template and its argument checks are written out again as they stand
    there and proved to agree with the first copy; the properties of the copy
    then follow from those of `DuckDbS3Query`. */
module QueryFileDuckDbS3Query {
  import opened Text
  import S3 = DuckDbS3Query

  function ReadFunction(fileType: string): string {
    if fileType == "csv" then "read_csv" else "read_parquet"
  }

  const CreateTablePrefix := "CREATE OR REPLACE TABLE data AS SELECT * FROM "

  /** `create_duckdb_init_script` of this copy. */
  function CreateInitScript(fileType: string, s3Uri: string, profileName: string): string {
    var readFunction := ReadFunction(fileType);
    var credentials := "CALL load_aws_credentials('" + profileName + "');";
    var createTable := CreateTablePrefix + readFunction + "('" + s3Uri + "');";
    "\n"
    + "INSTALL aws;" + "\n"
    + "LOAD aws;" + "\n"
    + credentials + "\n"
    + createTable + "\n"
    + ".mode box" + "\n"
    + ".echo on" + "\n"
    + "PRAGMA table_info('data');" + "\n"
  }

  /** The checks at the top of `main` in this copy. */
  function ParseArgs(argv: seq<string>): S3.Invocation {
    if |argv| < 3 then S3.Usage
    else
      var fileType := AsciiLower(argv[1]);
      if fileType != "csv" && fileType != "parquet" then S3.BadType
      else S3.Ok(fileType, argv[2], if |argv| > 3 then argv[3] else "default")
  }

  /** Both copies build the same script from the same arguments. */
  lemma SameScript(fileType: string, s3Uri: string, profileName: string)
    ensures CreateInitScript(fileType, s3Uri, profileName) == S3.CreateInitScript(fileType, s3Uri, profileName)
  {
  }

  /** Both copies accept and reject the same argument vectors, with the same values. */
  lemma SameValidation(argv: seq<string>)
    ensures ParseArgs(argv) == S3.ParseArgs(argv)
  {
  }

  /** On the accepted path the Parquet reader is chosen exactly when the
      file type, lower-cased, is `parquet`, and the CSV reader exactly when it is `csv`. */
  lemma ReaderFollowsFileType(argv: seq<string>)
    requires ParseArgs(argv).Ok?
    ensures ReadFunction(ParseArgs(argv).fileType) == "read_parquet" <==> CaseVariant(argv[1], "parquet")
    ensures ReadFunction(ParseArgs(argv).fileType) == "read_csv" <==> CaseVariant(argv[1], "csv")
  {
    SameValidation(argv);
    S3.AcceptedValues(argv);
    S3.IsLowerFileTypes();
    LowerIsWordIff(argv[1], "csv");
    LowerIsWordIff(argv[1], "parquet");
  }

  /** With exactly three entries the profile is `default`, and the fourth
      line of the script is the credential call for it, whatever the URI
      holds; with no line feed in the URI the script has nine lines. */
  lemma DefaultProfileLine(argv: seq<string>)
    requires |argv| == 3 && ParseArgs(argv).Ok?
    ensures var inv := ParseArgs(argv);
      var pieces := Split(CreateInitScript(inv.fileType, inv.s3Uri, inv.profileName));
      inv.profileName == "default"
      && |pieces| >= 4 && pieces[3] == "CALL load_aws_credentials('default');"
      && (NoNewline(argv[2]) ==> |pieces| == 9)
  {
    var inv := ParseArgs(argv);
    SameValidation(argv);
    S3.AcceptedValues(argv);
    assert inv.profileName == "default";
    var script := CreateInitScript(inv.fileType, inv.s3Uri, "default");
    SameScript(inv.fileType, inv.s3Uri, "default");
    assert NoNewline("default");
    S3.TemplateHeadLines(inv.fileType, inv.s3Uri, "default");
    assert Split(script)[3] == Split(script)[..4][3];
    if NoNewline(argv[2]) {
      S3.TemplateLines(inv.fileType, inv.s3Uri, "default");
    }
  }

  /** When neither the URI nor the profile holds a line feed, the script splits
      into nine pieces on line feeds, the first and the last empty. */
  lemma NineSegments(fileType: string, s3Uri: string, profileName: string)
    requires NoNewline(s3Uri) && NoNewline(profileName)
    ensures var pieces := Split(CreateInitScript(fileType, s3Uri, profileName));
      |pieces| == 9 && pieces[0] == "" && pieces[8] == ""
  {
    SameScript(fileType, s3Uri, profileName);
    S3.TemplateLines(fileType, s3Uri, profileName);
  }
}
