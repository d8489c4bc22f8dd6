/** `duckdb_query.py`: decides whether the reference is an S3 URI and builds
    the DuckDB initialization script for it; `main` warns when an S3 URI comes
    without an AWS profile. */
module DuckDbQuery {
  import opened Text
  import opened UrlScheme

  /** `is_s3_uri`: the parsed scheme is `s3`. */
  predicate IsS3Uri(uri: string) {
    Scheme(uri) == "s3"
  }

  lemma LowerIsS(c: char)
    requires LowerChar(c) == 's'
    ensures c == 's' || c == 'S'
  {
  }

  lemma S3SchemeStartsWithS3(uri: string)
    requires IsS3Uri(uri)
    ensures StartsWith(uri, "s3:") || StartsWith(uri, "S3:")
  {
    SchemeIsPrefix(uri);
    var head := uri[..2];
    assert Scheme(uri) == AsciiLower(head);
    assert LowerChar(head[0]) == 's' && LowerChar(head[1]) == '3';
    LowerIsS(uri[0]);
    assert uri[1] == '3' && uri[2] == ':';
    assert uri[..3] == [uri[0], '3', ':'];
  }

  lemma S3PrefixHasS3Scheme(uri: string)
    requires StartsWith(uri, "s3:") || StartsWith(uri, "S3:")
    ensures IsS3Uri(uri)
  {
    var head := uri[..2];
    assert uri == head + ":" + uri[3..];
    assert IsSchemeText(head);
    SchemeOfPrefix(head, uri[3..]);
    assert AsciiLower(head) == "s3";
  }

  /** The scheme is `s3` exactly when the reference begins with `s3:` or `S3:`. */
  lemma IsS3UriIff(uri: string)
    ensures IsS3Uri(uri) <==> StartsWith(uri, "s3:") || StartsWith(uri, "S3:")
  {
    if IsS3Uri(uri) {
      S3SchemeStartsWithS3(uri);
    }
    if StartsWith(uri, "s3:") || StartsWith(uri, "S3:") {
      S3PrefixHasS3Scheme(uri);
    }
  }

  /** Empty strings, strings without a colon and absolute local paths are not S3 URIs. */
  lemma LocalReferencesAreNotS3(uri: string)
    requires uri == "" || ':' !in uri || uri[0] == '/'
    ensures !IsS3Uri(uri)
  {
    IsS3UriIff(uri);
  }

  /** The reader named by `file_type`: only the exact string `csv` picks the CSV reader. */
  function ReadFunction(fileType: string): (r: string)
    ensures r == "read_csv" <==> fileType == "csv"
    ensures r == "read_parquet" <==> fileType != "csv"
  {
    if fileType == "csv" then "read_csv" else "read_parquet"
  }

  /** Python truthiness of an `Optional[str]`: present and non-empty. */
  predicate IsTruthy(profile: Option<string>) {
    profile.Some? && profile.value != ""
  }

  /** The third AWS entry: the credential call for a truthy profile, otherwise an empty line. */
  function CredentialStatement(profile: Option<string>): (r: string)
    ensures r != "" <==> IsTruthy(profile)
  {
    if IsTruthy(profile) then "CALL load_aws_credentials('" + profile.value + "');" else ""
  }

  /** `CREATE OR REPLACE TABLE data AS SELECT * FROM `, the head of the table statement. */
  const CreateTablePrefix := "CREATE OR REPLACE TABLE data AS SELECT * FROM "

  function CreateTableStatement(readFunction: string, filePath: string): string {
    CreateTablePrefix + readFunction + "('" + filePath + "');"
  }

  const AwsPrefix := ["INSTALL aws;", "LOAD aws;"]
  const PresentationAndSchema := [".mode box", ".echo on", "PRAGMA table_info('data');"]

  /** The statements of the script, in order: the AWS entries for an S3 URI,
      then the table, the presentation settings and the schema query. */
  function InitStatements(filePath: string, fileType: string, profile: Option<string>): (r: seq<string>)
    ensures |r| == if IsS3Uri(filePath) then 7 else 4
    ensures IsS3Uri(filePath) ==>
      r[0] == "INSTALL aws;" && r[1] == "LOAD aws;" && r[2] == CredentialStatement(profile)
    ensures r[|r| - 4] == CreateTableStatement(ReadFunction(fileType), filePath)
    ensures r[|r| - 3] == ".mode box" && r[|r| - 2] == ".echo on"
    ensures r[|r| - 1] == "PRAGMA table_info('data');"
  {
    var aws := if IsS3Uri(filePath) then AwsPrefix + [CredentialStatement(profile)] else [];
    aws + [CreateTableStatement(ReadFunction(fileType), filePath)] + PresentationAndSchema
  }

  /** The script text: the statements joined by line feeds. */
  function InitScript(filePath: string, fileType: string, profile: Option<string>): string {
    Join(InitStatements(filePath, fileType, profile))
  }

  /** `create_duckdb_init_script`: grows a list of statements in two steps and joins it. */
  method CreateInitScript(filePath: string, fileType: string, profile: Option<string>) returns (text: string)
    ensures text == InitScript(filePath, fileType, profile)
  {
    var readFunction := ReadFunction(fileType);
    var script: seq<string> := [];
    if IsS3Uri(filePath) {
      script := script + [
        "INSTALL aws;",
        "LOAD aws;",
        if IsTruthy(profile) then "CALL load_aws_credentials('" + profile.value + "');" else ""
      ];
    }
    script := script + [
      CreateTablePrefix + readFunction + "('" + filePath + "');",
      ".mode box",
      ".echo on",
      "PRAGMA table_info('data');"
    ];
    assert script == InitStatements(filePath, fileType, profile);
    text := Join(script);
  }

  /** For a local path the script is exactly the table statement, `.mode box`,
      `.echo on` and the schema query joined by line feeds. */
  lemma LocalScript(filePath: string, fileType: string, profile: Option<string>)
    requires !IsS3Uri(filePath)
    ensures InitScript(filePath, fileType, profile)
      == CreateTableStatement(ReadFunction(fileType), filePath)
         + "\n" + ".mode box" + "\n" + ".echo on" + "\n" + "PRAGMA table_info('data');"
  {
    var create := CreateTableStatement(ReadFunction(fileType), filePath);
    assert InitStatements(filePath, fileType, profile) == [create, ".mode box", ".echo on", "PRAGMA table_info('data');"];
    Join4(create, ".mode box", ".echo on", "PRAGMA table_info('data');");
  }

  /** For an S3 URI the script is `INSTALL aws;`, `LOAD aws;`, the credential
      entry and then the four lines of the local case, joined by line feeds. */
  lemma S3Script(filePath: string, fileType: string, profile: Option<string>)
    requires IsS3Uri(filePath)
    ensures InitScript(filePath, fileType, profile)
      == "INSTALL aws;" + "\n" + "LOAD aws;" + "\n" + CredentialStatement(profile)
         + "\n" + CreateTableStatement(ReadFunction(fileType), filePath)
         + "\n" + ".mode box" + "\n" + ".echo on" + "\n" + "PRAGMA table_info('data');"
  {
    var cred := CredentialStatement(profile);
    var create := CreateTableStatement(ReadFunction(fileType), filePath);
    var aws := ["INSTALL aws;", "LOAD aws;", cred];
    var rest := [create, ".mode box", ".echo on", "PRAGMA table_info('data');"];
    assert InitStatements(filePath, fileType, profile) == aws + rest;
    JoinAppend(aws, rest);
    Join3("INSTALL aws;", "LOAD aws;", cred);
    Join4(create, ".mode box", ".echo on", "PRAGMA table_info('data');");
  }

  /** With a truthy profile the third line is the credential call naming it. */
  lemma S3ScriptWithProfile(filePath: string, fileType: string, name: string)
    requires IsS3Uri(filePath) && name != ""
    ensures InitScript(filePath, fileType, Some(name))
      == "INSTALL aws;" + "\n" + "LOAD aws;" + "\n" + ("CALL load_aws_credentials('" + name + "');")
         + "\n" + CreateTableStatement(ReadFunction(fileType), filePath)
         + "\n" + ".mode box" + "\n" + ".echo on" + "\n" + "PRAGMA table_info('data');"
  {
    S3Script(filePath, fileType, Some(name));
  }

  /** Without a profile, or with an empty one, the third line is empty: two
      line feeds in a row stand between `LOAD aws;` and the table statement. */
  lemma S3ScriptWithoutProfile(filePath: string, fileType: string, profile: Option<string>)
    requires IsS3Uri(filePath) && !IsTruthy(profile)
    ensures InitScript(filePath, fileType, profile)
      == "INSTALL aws;" + "\n" + "LOAD aws;" + "\n" + ""
         + "\n" + CreateTableStatement(ReadFunction(fileType), filePath)
         + "\n" + ".mode box" + "\n" + ".echo on" + "\n" + "PRAGMA table_info('data');"
  {
    S3Script(filePath, fileType, profile);
  }

  /** The script has no leading or trailing line feed: it starts with its
      first statement and ends with the schema query. */
  lemma ScriptEdges(filePath: string, fileType: string, profile: Option<string>)
    ensures var s := InitScript(filePath, fileType, profile);
      StartsWith(s, if IsS3Uri(filePath) then "INSTALL aws;" else CreateTablePrefix)
      && EndsWith(s, "PRAGMA table_info('data');")
      && s[0] != '\n' && s[|s| - 1] != '\n'
  {
    var s := InitScript(filePath, fileType, profile);
    if IsS3Uri(filePath) {
      S3Script(filePath, fileType, profile);
      assert s[0] == 'I';
    } else {
      LocalScript(filePath, fileType, profile);
      CreateTablePrefixStart();
      assert s[0] == 'C';
    }
  }

  /** The head of the table statement, in two pieces short enough for the
      verifier to read character by character. */
  lemma CreateTablePrefixPieces()
    ensures CreateTablePrefix == "CREATE OR REPLACE TABLE data " + "AS SELECT * FROM "
  {
  }

  /** The heads of the table statement and the credential call hold no line feed. */
  lemma PrefixesHaveNoNewline()
    ensures NoNewline(CreateTablePrefix) && NoNewline("CALL load_aws_credentials('")
  {
    CreateTablePrefixPieces();
  }

  /** The fixed statements and the quoting around the embedded strings hold no
      line feed. Both builders are made of these pieces. */
  lemma FixedTextHasNoNewline()
    ensures NoNewline("INSTALL aws;") && NoNewline("LOAD aws;") && NoNewline(".mode box")
    ensures NoNewline(".echo on") && NoNewline("PRAGMA table_info('data');")
    ensures NoNewline("('") && NoNewline("');") && NoNewline("read_csv") && NoNewline("read_parquet")
  {
  }

  /** The first two characters of the table statement's head. */
  lemma CreateTablePrefixStart()
    ensures |CreateTablePrefix| >= 2 && CreateTablePrefix[0] == 'C' && CreateTablePrefix[1] == 'R'
  {
    CreateTablePrefixPieces();
  }

  /** When neither the path nor the profile holds a line feed, the lines of
      the script are exactly its statements: seven for an S3 URI, four otherwise. */
  lemma ScriptLines(filePath: string, fileType: string, profile: Option<string>)
    requires NoNewline(filePath)
    requires profile.Some? ==> NoNewline(profile.value)
    ensures Split(InitScript(filePath, fileType, profile)) == InitStatements(filePath, fileType, profile)
    ensures |Split(InitScript(filePath, fileType, profile))| == if IsS3Uri(filePath) then 7 else 4
  {
    var r := InitStatements(filePath, fileType, profile);
    var create := CreateTableStatement(ReadFunction(fileType), filePath);
    var cred := CredentialStatement(profile);
    PrefixesHaveNoNewline();
    FixedTextHasNoNewline();
    assert NoNewline(create);
    assert NoNewline(cred);
    if IsS3Uri(filePath) {
      assert r == ["INSTALL aws;", "LOAD aws;", cred, create, ".mode box", ".echo on", "PRAGMA table_info('data');"];
    } else {
      assert r == [create, ".mode box", ".echo on", "PRAGMA table_info('data');"];
    }
    assert AllNoNewline(r);
    SplitJoin(r);
  }

  /** The path is embedded verbatim, quotes and all: it reads back unchanged. */
  lemma PathEmbeddedVerbatim(filePath: string, fileType: string)
    ensures CallArgument(CreateTablePrefix + ReadFunction(fileType),
                         CreateTableStatement(ReadFunction(fileType), filePath)) == Some(filePath)
  {
    var callee := CreateTablePrefix + ReadFunction(fileType);
    assert CreateTableStatement(ReadFunction(fileType), filePath) == callee + "('" + filePath + "');";
    CallArgumentOf(callee, filePath);
  }

  /** A truthy profile name is embedded verbatim in the credential call. */
  lemma ProfileEmbeddedVerbatim(name: string)
    requires name != ""
    ensures CallArgument("CALL load_aws_credentials", CredentialStatement(Some(name))) == Some(name)
  {
    CallArgumentOf("CALL load_aws_credentials", name);
  }

  /** Some statement of the list calls `load_aws_credentials`. */
  predicate HasCredentialCall(statements: seq<string>) {
    exists k :: 0 <= k < |statements| && StartsWith(statements[k], "CALL load_aws_credentials(")
  }

  /** A string whose second character is not `A` is no credential call. */
  lemma NotCredentialCall(x: string)
    requires |x| < 2 || x[1] != 'A'
    ensures !StartsWith(x, "CALL load_aws_credentials(")
  {
  }

  /** Without an S3 URI and a truthy profile no statement is a credential
      call: none of them has `A` as its second character. */
  lemma NoCredentialCall(filePath: string, fileType: string, profile: Option<string>)
    requires !(IsS3Uri(filePath) && IsTruthy(profile))
    ensures !HasCredentialCall(InitStatements(filePath, fileType, profile))
  {
    var r := InitStatements(filePath, fileType, profile);
    var n := |r|;
    CreateTablePrefixStart();
    assert r[n - 4][1] == CreateTablePrefix[1] == 'R';
    assert r[n - 3][1] == 'm' && r[n - 2][1] == 'e' && r[n - 1][1] == 'R';
    if IsS3Uri(filePath) {
      assert r[0][1] == 'N' && r[1][1] == 'O' && r[2] == "";
    }
    forall k | 0 <= k < n ensures !StartsWith(r[k], "CALL load_aws_credentials(") {
      NotCredentialCall(r[k]);
    }
  }

  /** A credential call is emitted exactly for an S3 URI with a truthy profile. */
  lemma CredentialCallIff(filePath: string, fileType: string, profile: Option<string>)
    ensures HasCredentialCall(InitStatements(filePath, fileType, profile))
      <==> IsS3Uri(filePath) && IsTruthy(profile)
  {
    var r := InitStatements(filePath, fileType, profile);
    if IsS3Uri(filePath) && IsTruthy(profile) {
      assert StartsWith(r[2], "CALL load_aws_credentials(");
    } else {
      NoCredentialCall(filePath, fileType, profile);
    }
  }

  /** `main` warns about default credentials for an S3 URI with a falsy profile. */
  predicate WarnsDefaultCredentials(filePath: string, profile: Option<string>) {
    IsS3Uri(filePath) && !IsTruthy(profile)
  }

  /** The warning is logged exactly when an S3 script carries no credential call. */
  lemma WarningIffNoCredentialCall(filePath: string, fileType: string, profile: Option<string>)
    ensures WarnsDefaultCredentials(filePath, profile)
      <==> IsS3Uri(filePath) && !HasCredentialCall(InitStatements(filePath, fileType, profile))
  {
    CredentialCallIff(filePath, fileType, profile);
  }

  /** `main` hands `args.type.lower()` to the builder; the type is one of the
      `argparse` choices, which are already lower case. */
  lemma MainPassesChoiceUnchanged(fileType: string)
    requires fileType == "csv" || fileType == "parquet"
    ensures AsciiLower(fileType) == fileType
  {
  }

  /** A Parquet object on S3 with the profile `work`: the AWS lines, the
      credential call for `work`, the Parquet reader over the URI, the
      presentation settings and the schema query, in that order; no warning. */
  lemma S3ParquetExample(objectPath: string)
    ensures var uri := "s3://" + objectPath;
      InitStatements(uri, "parquet", Some("work"))
        == [ "INSTALL aws;",
             "LOAD aws;",
             "CALL load_aws_credentials('" + "work" + "');",
             CreateTablePrefix + "read_parquet" + "('" + uri + "');",
             ".mode box",
             ".echo on",
             "PRAGMA table_info('data');" ]
      && !WarnsDefaultCredentials(uri, Some("work"))
  {
    var uri := "s3://" + objectPath;
    assert uri[..3] == "s3:";
    S3PrefixHasS3Scheme(uri);
    assert IsTruthy(Some("work"));
    assert CredentialStatement(Some("work")) == "CALL load_aws_credentials('" + "work" + "');";
    assert ReadFunction("parquet") == "read_parquet";
  }
}
