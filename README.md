# DuckDB initialization scripts, modelled in Dafny

The repository's command-line helpers open a CSV or Parquet file in the DuckDB
shell. They write a short initialization script and start `duckdb -init <script>`.
This project models how that script is built, and the argument checks made
before it is built. Everything it models is pure, total string and sequence
manipulation, so the script's exact text is stated and proved: the order of the
statements, the number of lines, the empty line left when there is no profile,
that user strings are embedded without escaping, and the leading and trailing
line feeds.

- `text.dfy` (module `Text`) holds the string helpers. It has Python's `"\n".join` (`Join`) and
  `str.split("\n")` (`Split`), with the two round trips between them (`SplitJoin`,
  `JoinSplit`). It also has ASCII lower-casing (`AsciiLower`), and a reader that gives back the quoted
  argument of a one-argument call `f('x');` (`CallArgument`).
- `url_scheme.dfy` (module `UrlScheme`) holds the scheme rule of `urllib.parse.urlparse`, the only part
  of it that `is_s3_uri` reads. The scheme is the text before the first colon. That
  text counts only when it is non-empty, begins with an ASCII letter, and holds only letters,
  digits, `+`, `-` and `.` (section 3.1 of RFC 3986). The scheme is then
  reported lower-cased. Otherwise the scheme is empty.
- `duckdb_query.dfy` (module `DuckDbQuery`) models `duckdb_query.py`. It has `is_s3_uri` and the spec
  function `InitStatements`. It has `create_duckdb_init_script` as the method
  `CreateInitScript`, which grows a `seq<string>` in two steps the way the
  source grows its list and is proved equal to the joined spec. It also has the
  condition under which `main` warns about default credentials.
- `duckdb_s3_query.dfy` (module `DuckDbS3Query`) models `duckdb_s3_query.py`. It has the f-string
  template `CreateInitScript`, which always emits the AWS lines, and the checks at the top of `main` as
  `ParseArgs` into `Usage | BadType | Ok(fileType, s3Uri, profileName)`. The exit
  status is a value (`ExitStatus`), and `InitCommands` is the script, built only on `Ok`.
- `queryfile_duckdb_s3_query.dfy` models `queryfile/duckdb_s3_query.py`, a byte-identical copy. It
  writes its functions out again and proves them equal to the first copy. The copy's properties
  follow from that.
- `cross_file.dfy` relates the two builders. For an S3 URI and a truthy
  profile, the script from `duckdb_query.py` is the template with its first and last line feed
  removed.

Python's `Optional[str]` profile is `Option<string>`. Its truthiness (`IsTruthy`)
is "present and non-empty", as in `if profile_name`. The template builders are
functions. `DuckDbQuery.CreateInitScript` is a method, and its `ensures` ties its
result to the function `InitScript`, so equal inputs give equal scripts.

With no profile, `duckdb_query.py` puts an empty line where the credential call
would go, so an S3 script still has seven lines (`S3ScriptWithoutProfile`).

## Model

| member | source | states |
|---|---|---|
| UrlScheme.Scheme | duckdb_query.py:53 | the scheme `urlparse` reports: the lower-cased text before the first colon when it is valid scheme text, else empty; characterized by `SchemeIsPrefix`, `SchemeOfPrefix` and `NoColonNoScheme` |
| UrlScheme.FirstColon | duckdb_query.py:53 | the index `urlsplit` finds with `find(':')`: a colon, with no colon before it; none exactly when there is no colon |
| UrlScheme.SchemeIsPrefix | duckdb_query.py:53 | a non-empty scheme is the lower-cased text before the first colon, and that text is valid scheme text |
| UrlScheme.SchemeOfPrefix | duckdb_query.py:53 | valid scheme text followed by `:` is reported, lower-cased, whatever follows |
| UrlScheme.NoColonNoScheme | duckdb_query.py:53 | a reference without a colon has the empty scheme |
| DuckDbQuery.IsS3Uri | duckdb_query.py:43-54 | `is_s3_uri`: the parsed scheme is `s3`; characterized by `IsS3UriIff` |
| DuckDbQuery.IsS3UriIff | duckdb_query.py:43-54 | `is_s3_uri` holds exactly when the reference begins with `s3:` or `S3:` (scheme lower-cased equals `s3`) |
| DuckDbQuery.LocalReferencesAreNotS3 | duckdb_query.py:53-54 | empty strings, strings without a colon and paths starting with `/` are not S3 URIs |
| DuckDbQuery.ReadFunction | duckdb_query.py:68 | `read_csv` exactly when the type is the string `csv`; `read_parquet` for every other string |
| DuckDbQuery.CredentialStatement | duckdb_query.py:77 | the third AWS entry is non-empty exactly when the profile is truthy (the credential call), and empty otherwise |
| DuckDbQuery.InitStatements | duckdb_query.py:70-85 | 7 statements for an S3 URI, 4 otherwise; `INSTALL aws;`, `LOAD aws;`, credential entry first for S3; the table statement immediately before `.mode box`, `.echo on`; the schema query last |
| DuckDbQuery.InitScript | duckdb_query.py:87 | the statements joined by line feeds; its lines are the statements (`ScriptLines`) |
| DuckDbQuery.CreateInitScript | duckdb_query.py:56-87 | the list built in two `extend` steps and joined is exactly the joined spec statements |
| DuckDbQuery.LocalScript | duckdb_query.py:80-87 | for a non-S3 reference the script is exactly the table statement, `.mode box`, `.echo on`, `PRAGMA table_info('data');` joined by line feeds |
| DuckDbQuery.S3Script | duckdb_query.py:72-87 | for an S3 URI the script is `INSTALL aws;`, `LOAD aws;`, the credential entry, then the four local lines, joined by line feeds |
| DuckDbQuery.S3ScriptWithProfile | duckdb_query.py:74-87 | with a truthy profile the third line is `CALL load_aws_credentials('<profile>');` |
| DuckDbQuery.S3ScriptWithoutProfile | duckdb_query.py:77 | with profile `None` or `""` the third line is empty: two line feeds between `LOAD aws;` and the table statement |
| DuckDbQuery.ScriptEdges | duckdb_query.py:87 | the script starts with `INSTALL aws;` (S3) or the table statement (otherwise), ends with `PRAGMA table_info('data');`, and has no leading or trailing line feed |
| DuckDbQuery.ScriptLines | duckdb_query.py:70-87 | with no line feed in path or profile, splitting the script on line feeds gives back exactly its statements: 7 lines for S3, 4 otherwise |
| DuckDbQuery.PathEmbeddedVerbatim | duckdb_query.py:81 | the path reads back unchanged from between the quotes of the table statement, quotes included (no escaping) |
| DuckDbQuery.ProfileEmbeddedVerbatim | duckdb_query.py:77 | a truthy profile reads back unchanged from the credential call (no escaping) |
| DuckDbQuery.CredentialCallIff | duckdb_query.py:72-78 | some statement calls `load_aws_credentials` exactly when the reference is an S3 URI and the profile is truthy |
| DuckDbQuery.NoCredentialCall | duckdb_query.py:72-85 | without an S3 URI and a truthy profile no statement starts with `CALL load_aws_credentials(` |
| DuckDbQuery.WarnsDefaultCredentials | duckdb_query.py:106-107 | the condition of the warning: an S3 URI and a falsy profile; tied to the script by `WarningIffNoCredentialCall` |
| DuckDbQuery.WarningIffNoCredentialCall | duckdb_query.py:106-107 | `main` warns exactly when the reference is an S3 URI and its script carries no credential call |
| DuckDbQuery.MainPassesChoiceUnchanged | duckdb_query.py:95-100 | lower-casing an `argparse` choice (`csv`, `parquet`) leaves it unchanged |
| DuckDbQuery.S3ParquetExample | duckdb_query.py:72-85 | `s3://…`, `parquet`, profile `work`: the seven statements in order, with the Parquet reader over the URI, and no warning |
| DuckDbS3Query.ReadFunction | duckdb_s3_query.py:7 | `read_csv` exactly when the type is `csv`, else `read_parquet` |
| DuckDbS3Query.CreateInitScript | duckdb_s3_query.py:6-16 | the f-string template; its lines are fixed by `TemplateIsJoinedLines`, `TemplateLines` and `TemplateHeadLines` |
| DuckDbS3Query.TemplateStatements | duckdb_s3_query.py:9-15 | the seven statements of the template, in order: always seven, whatever the arguments |
| DuckDbS3Query.TemplateIsJoinedLines | duckdb_s3_query.py:8-16 | the template equals an empty line, the seven statements and an empty line, joined by line feeds |
| DuckDbS3Query.TemplateIsFramedJoin | duckdb_s3_query.py:8-16 | the template is `"\n"`, the seven statements joined by `"\n"`, then `"\n"` |
| DuckDbS3Query.TemplateAlwaysLoadsAws | duckdb_s3_query.py:6-16 | for every URI the script begins with a line feed, `INSTALL aws;`, `LOAD aws;` and the credential call for the given profile, and ends with a line feed |
| DuckDbS3Query.StatementsHaveNoNewline | duckdb_s3_query.py:9-15 | the seven statements hold no line feed when the URI and profile hold none |
| DuckDbS3Query.TemplateLines | duckdb_s3_query.py:8-16 | with no line feed in URI or profile the script splits into 9 pieces: empty, the seven statements, empty |
| DuckDbS3Query.TemplateHeadLines | duckdb_s3_query.py:8-11 | for every URI, line feeds included, the first four lines are empty, `INSTALL aws;`, `LOAD aws;` and the credential call, when the profile holds no line feed |
| DuckDbS3Query.ArgumentsEmbeddedVerbatim | duckdb_s3_query.py:11-12 | URI and profile read back unchanged from between their quotes |
| DuckDbS3Query.ParseArgs | duckdb_s3_query.py:19-30 | the usage error exactly when there are fewer than three entries; an accepted file type is `csv` or `parquet` |
| DuckDbS3Query.ExitStatus | duckdb_s3_query.py:22 | 0 or 1, and 0 exactly on the accepted path (both errors call `sys.exit(1)`) |
| DuckDbS3Query.InitCommands | duckdb_s3_query.py:32 | a script exists exactly when the arguments are accepted |
| DuckDbS3Query.ShortArgvIsUsage | duckdb_s3_query.py:19-22 | fewer than three entries: the usage error, exit status 1, no script |
| DuckDbS3Query.AcceptedIff | duckdb_s3_query.py:19-27 | accepted exactly when there are at least three entries and `argv[1]` spells `csv` or `parquet` in any mix of letter case |
| DuckDbS3Query.BadTypeRejected | duckdb_s3_query.py:24-27 | any other file type: the type error, exit status 1, no script |
| DuckDbS3Query.AcceptedValues | duckdb_s3_query.py:24-32 | on acceptance the type is `argv[1]` lower-cased (`csv` or `parquet`), the URI `argv[2]`, the profile `argv[3]` or `default`; exit status 0, and the script is built from these |
| DuckDbS3Query.UpperCaseCsvAccepted | duckdb_s3_query.py:24-25 | `CSV` is accepted and becomes `csv` with profile `default` |
| DuckDbS3Query.ExtraArgumentsIgnored | duckdb_s3_query.py:29-30 | entries beyond index 3 make no difference |
| QueryFileDuckDbS3Query.ReadFunction | queryfile/duckdb_s3_query.py:7 | the copy's reader choice, equal to the first copy's through `SameScript` |
| QueryFileDuckDbS3Query.CreateInitScript | queryfile/duckdb_s3_query.py:6-16 | the copy's template, equal to the first copy's for every input (`SameScript`) |
| QueryFileDuckDbS3Query.ParseArgs | queryfile/duckdb_s3_query.py:19-30 | the copy's checks, equal to the first copy's for every argument vector (`SameValidation`) |
| QueryFileDuckDbS3Query.SameScript | queryfile/duckdb_s3_query.py:6-16 | the copy's template returns the same string as the first copy's for every input |
| QueryFileDuckDbS3Query.SameValidation | queryfile/duckdb_s3_query.py:19-30 | the copy's checks give the same verdict and values as the first copy's for every argument vector |
| QueryFileDuckDbS3Query.ReaderFollowsFileType | queryfile/duckdb_s3_query.py:7-32 | on the accepted path `read_parquet` is chosen exactly when `argv[1]` is `parquet` in some case, `read_csv` exactly when it is `csv` |
| QueryFileDuckDbS3Query.DefaultProfileLine | queryfile/duckdb_s3_query.py:11-30 | with exactly three entries the profile is `default` and the fourth line is `CALL load_aws_credentials('default');`, whatever the URI holds; with no line feed in the URI there are nine lines |
| QueryFileDuckDbS3Query.NineSegments | queryfile/duckdb_s3_query.py:8-16 | with no line feed in URI or profile the script splits into 9 pieces, the first and last empty |
| CrossFile.S3StatementsAgree | duckdb_query.py:72-85 | for an S3 URI and a truthy profile both files emit the same seven statements |
| CrossFile.S3ScriptIsUnframedTemplate | duckdb_s3_query.py:8-16 | for an S3 URI and a truthy profile the `duckdb_query.py` script is the template without its first and last line feed |
| CrossFile.LocalStatementsAreTemplateTail | duckdb_query.py:80-85 | for a non-S3 reference the `duckdb_query.py` statements are the template's last four |
| Text.SplitJoin | duckdb_query.py:87 | splitting undoes `"\n".join` when no piece holds a line feed |

## Left out

- Writing the script to a temporary file, running `duckdb -init`, and deleting the file, with the mapping of exceptions to messages around it (duckdb_query.py:111-137, duckdb_s3_query.py:34-56). These are operating-system and process calls.
- Logging set-up and messages, `print`, and the side effect of `sys.exit`. Exit status is kept only as the value `ExitStatus`.
- `argparse` in `duckdb_query.py` (lines 93-98): its `choices` restriction appears only as the requirement of `MainPassesChoiceUnchanged`, and its default `csv` is not modelled.
- `juypter-w-vault/set_secrets.py`: one write to a Vault server through a foreign client, with no logic.
- DuckDbQuery.IsS3UriIff: `urlsplit` first strips leading C0 control and space characters and deletes tab, CR and LF. `IsS3Uri` assumes references without them and reads the string as given, so `" s3://b/k"` is not an S3 URI in the model.
- UrlScheme.Scheme: follows the rule of current Python releases (3.9.16, 3.10.9, 3.11.1 and later), in which the text before the colon counts as a scheme only when it begins with an ASCII letter; that test makes no difference to whether the scheme is `s3`. The older check that treated `name:123` as a path with a port number is not modelled. Nothing past the scheme (network location, path, query, fragment) is modelled.
- DuckDbQuery.IsS3UriIff, DuckDbQuery.LocalReferencesAreNotS3: the model gives a verdict where `urlparse` raises `ValueError`: on a network location after `//` with an unbalanced `[` or `]` (`s3://[b/k`, `//[x/f.csv`), on a malformed bracketed host, and on a non-ASCII network location that normalizes to one of `/?#@:`. In `main` that exception is raised at duckdb_query.py:106, outside any `try`, and ends the program; the model calls `s3://[b/k` an S3 URI and `//[x/f.csv` not one.
- DuckDbS3Query.ParseArgs: `str.lower()` is modelled on ASCII letters only. The accept/reject verdict is the same as Python's, because no non-ASCII character lower-cases to a letter of `csv` or `parquet`.
- The line-count properties (`ScriptLines`, `TemplateLines`, `NineSegments`, the nine-line part of `DefaultProfileLine`) need the path, URI and profile to hold no line feed. With a line feed inside them the scripts have more lines.
- SQL quoting and escaping: the code does none, and the model embeds the strings verbatim.
