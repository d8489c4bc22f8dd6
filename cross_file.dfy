/** How the script of `duckdb_query.py` relates to the template of
    `duckdb_s3_query.py`. */
module CrossFile {
  import opened Text
  import DuckDbQuery
  import DuckDbS3Query

  /** For an S3 URI and a truthy profile both files emit the same seven statements. */
  lemma S3StatementsAgree(uri: string, fileType: string, name: string)
    requires DuckDbQuery.IsS3Uri(uri) && name != ""
    ensures DuckDbQuery.InitStatements(uri, fileType, Some(name))
      == DuckDbS3Query.TemplateStatements(fileType, uri, name)
  {
  }

  /** For an S3 URI and a truthy profile the script of `duckdb_query.py` is
      the template with its leading and trailing line feed removed. */
  lemma S3ScriptIsUnframedTemplate(uri: string, fileType: string, name: string)
    requires DuckDbQuery.IsS3Uri(uri) && name != ""
    ensures var s := DuckDbS3Query.CreateInitScript(fileType, uri, name);
      DuckDbQuery.InitScript(uri, fileType, Some(name)) == s[1..|s| - 1]
  {
    S3StatementsAgree(uri, fileType, name);
    DuckDbS3Query.TemplateIsFramedJoin(fileType, uri, name);
  }

  /** For a reference that is not an S3 URI, `duckdb_query.py` emits exactly
      the last four statements of the template: the template alone keeps the
      AWS lines. */
  lemma LocalStatementsAreTemplateTail(path: string, fileType: string, profile: Option<string>, name: string)
    requires !DuckDbQuery.IsS3Uri(path)
    ensures DuckDbQuery.InitStatements(path, fileType, profile)
      == DuckDbS3Query.TemplateStatements(fileType, path, name)[3..]
  {
  }
}
