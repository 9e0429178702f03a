/** SetUserdataProvider: choose where a stack's userdata script comes from.
    Empty fields of the stack's userdata are filled from the manifest's
    default one at a time; type "s3" selects the S3 provider, any other type
    the local-file provider. Reading the script is not part of this model. */
module UserdataProviders {
  import opened BuilderTypes

  datatype UserdataProvider = LocalProvider(path: string) | S3Provider(path: string)

  function SetUserdataProvider(userdata: Userdata, defaultUserdata: Userdata): (p: UserdataProvider)
    // the stack's own type wins; an empty one falls back to the default's
    ensures p.S3Provider? <==> userdata.typ == "s3" || (userdata.typ == "" && defaultUserdata.typ == "s3")
    // the path falls back independently of the type
    ensures userdata.path != "" ==> p.path == userdata.path
    ensures userdata.path == "" ==> p.path == defaultUserdata.path
  {
    var typ := if userdata.typ == "" then defaultUserdata.typ else userdata.typ;
    var path := if userdata.path == "" then defaultUserdata.path else userdata.path;
    if typ == "s3" then S3Provider(path) else LocalProvider(path)
  }

  /** The two fields are resolved independently: which provider is chosen
      depends only on the types, and its path only on the paths. */
  lemma FieldsResolveIndependently(typ: string, defaultTyp: string, path1: string, defaultPath1: string,
                                   path2: string, defaultPath2: string, typ2: string, defaultTyp2: string)
    ensures SetUserdataProvider(Userdata(typ, path1), Userdata(defaultTyp, defaultPath1)).S3Provider? ==
            SetUserdataProvider(Userdata(typ, path2), Userdata(defaultTyp, defaultPath2)).S3Provider?
    ensures SetUserdataProvider(Userdata(typ, path1), Userdata(defaultTyp, defaultPath1)).path ==
            SetUserdataProvider(Userdata(typ2, path1), Userdata(defaultTyp2, defaultPath1)).path
  {
  }

  /** A stack whose userdata sets both fields ignores the default entirely. */
  lemma CompleteUserdataIgnoresDefault(userdata: Userdata, default1: Userdata, default2: Userdata)
    requires userdata.typ != "" && userdata.path != ""
    ensures SetUserdataProvider(userdata, default1) == SetUserdataProvider(userdata, default2)
  {
  }

  /** The type match is exact: only "s3" selects S3. */
  lemma OnlyS3SelectsS3(userdata: Userdata, defaultUserdata: Userdata)
    requires userdata.typ != "s3" && userdata.typ != ""
    ensures SetUserdataProvider(userdata, defaultUserdata).LocalProvider?
  {
  }

  /** An empty stack userdata with default {local, /a.sh} reads /a.sh
      locally; {s3, ""} with default path /b.sh gives S3 at /b.sh. */
  lemma UserdataFallbackExamples()
    ensures SetUserdataProvider(Userdata("", ""), Userdata("local", "/a.sh")) == LocalProvider("/a.sh")
    ensures SetUserdataProvider(Userdata("s3", ""), Userdata("", "/b.sh")) == S3Provider("/b.sh")
    ensures SetUserdataProvider(Userdata("S3", "/c.sh"), Userdata("s3", "/b.sh")) == LocalProvider("/c.sh")
  {
  }
}
