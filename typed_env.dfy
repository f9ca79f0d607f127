/** `withTypedEnv` (src/index.ts:50-73): validate the environment, partition the record,
    render both modules, then create the output directory if needed and write the client
    module followed by the server module. The environment, including the `VERCEL` flag, is
    a parameter; the filesystem is the `Disk` object. */
module TypedEnv {
  import opened Wrappers
  import opened Strings
  import opened EnvSchema
  import opened Validator
  import opened Partitioner
  import opened Renderer

  /** `process.env.VERCEL === "1"`: literal types are replaced by `string`. */
  predicate StripLiterals(env: Environment)
  {
    "VERCEL" in env && env["VERCEL"] == "1"
  }

  /** The texts of the two generated modules. */
  datatype Generated = Generated(client: string, server: string)

  /** Everything `withTypedEnv` computes before touching the filesystem. */
  function Generate(schema: Schema, env: Environment): Result<Generated, seq<string>>
  {
    match ValidateEnv(schema, env)
    case Err(lines) => Err(lines)
    case Ok(rec) =>
      var p := PartitionRecord(schema, rec);
      var strip := StripLiterals(env);
      Ok(Generated(RenderFile(p.client, strip), RenderFile(p.server, strip)))
  }

  /** The reference value list of every declared key: an enumeration's members, or the
      singleton of the environment's value. */
  function Declared(schema: Schema, env: Environment): seq<Binding>
    requires forall i :: 0 <= i < |schema| ==> schema[i].key in env
  {
    seq(|schema|, i requires 0 <= i < |schema| =>
      Binding(schema[i].key, if schema[i].desc.Enum? then schema[i].desc.members else [env[schema[i].key]]))
  }

  /** The whole pipeline: generation succeeds exactly when every declared key conforms;
      the server module then renders every declared key in schema order, an enumeration
      with all its members whichever one the environment holds, and the client module
      renders exactly the public ones among them, in the same order. */
  lemma GenerateSpec(schema: Schema, env: Environment)
    requires WellFormed(schema)
    ensures Generate(schema, env).Ok? <==> forall i :: 0 <= i < |schema| ==> Conforms(schema[i], env)
    ensures Generate(schema, env).Ok? ==>
              && (forall i :: 0 <= i < |schema| ==> schema[i].key in env)
              && Generate(schema, env).value.server == RenderFile(Declared(schema, env), StripLiterals(env))
              && Generate(schema, env).value.client == RenderFile(PublicOnly(Declared(schema, env)), StripLiterals(env))
  {
    ValidateEnvSucceeds(schema, env);
    if Generate(schema, env).Ok? {
      var rec := ValidateEnv(schema, env).value;
      var p := PartitionRecord(schema, rec);
      ServerIsDeclared(schema, env);
      ClientIsPublicServer(schema, rec);
      assert Generate(schema, env).value == Generated(RenderFile(p.client, StripLiterals(env)), RenderFile(p.server, StripLiterals(env)));
    }
  }

  /** The server object built from a successful validation is the reference binding list. */
  lemma ServerIsDeclared(schema: Schema, env: Environment)
    requires WellFormed(schema)
    requires ValidateEnv(schema, env).Ok?
    ensures forall i :: 0 <= i < |schema| ==> schema[i].key in env
    ensures PartitionRecord(schema, ValidateEnv(schema, env).value).server == Declared(schema, env)
  {
    var rec := Parse(schema, env).value;
    DeclaredFromRecord(schema, env, rec);
  }

  lemma DeclaredFromRecord(schema: Schema, env: Environment, rec: seq<Entry>)
    requires WellFormed(schema)
    requires |rec| == |schema|
    requires forall i :: 0 <= i < |schema| ==> schema[i].key in env && rec[i] == Entry(schema[i].key, env[schema[i].key])
    ensures PartitionRecord(schema, rec).server == Declared(schema, env)
  {
    ServerFollowsRecord(schema, rec);
    LookupAll(schema);
    var server := PartitionRecord(schema, rec).server;
    var declared := Declared(schema, env);
    assert forall i :: 0 <= i < |schema| ==> server[i] == declared[i];
  }

  /** All or nothing: when validation fails nothing is generated, and the failure carries
      exactly the validator's lines. */
  lemma GenerateFailsWithValidation(schema: Schema, env: Environment)
    ensures Generate(schema, env).Err? <==> ValidateEnv(schema, env).Err?
    ensures Generate(schema, env).Err? ==> Generate(schema, env).error == ValidateEnv(schema, env).error
  {
  }

  /** The schema of the repository's test: two free-form keys and a three-member enumeration. */
  function TestSchema(): Schema
  {
    [ Field("NEXT_PUBLIC_API_URL", Scalar),
      Field("SECRET_KEY", Scalar),
      Field("NODE_ENV", Enum(["development", "production", "test"])) ]
  }

  /** The test's environment values, and no `VERCEL=1`. */
  predicate TestEnvironment(env: Environment)
  {
    && "NEXT_PUBLIC_API_URL" in env && env["NEXT_PUBLIC_API_URL"] == "https://api.example.com"
    && "SECRET_KEY" in env && env["SECRET_KEY"] == "mysecretkey"
    && "NODE_ENV" in env && env["NODE_ENV"] == "development"
    && !StripLiterals(env)
  }

  lemma TestSchemaFacts(env: Environment)
    requires TestEnvironment(env)
    ensures WellFormed(TestSchema())
    ensures forall i :: 0 <= i < |TestSchema()| ==> Conforms(TestSchema()[i], env)
    ensures Declared(TestSchema(), env)
         == [Binding("NEXT_PUBLIC_API_URL", ["https://api.example.com"]),
             Binding("SECRET_KEY", ["mysecretkey"]),
             Binding("NODE_ENV", ["development", "production", "test"])]
  {
  }

  lemma TestVisibility(url: Binding, secret: Binding, nodeEnv: Binding)
    requires url.key == "NEXT_PUBLIC_API_URL" && secret.key == "SECRET_KEY" && nodeEnv.key == "NODE_ENV"
    ensures PublicOnly([url, secret, nodeEnv]) == [url, nodeEnv]
  {
    assert IsPublic(url.key) && !IsPublic(secret.key) && IsPublic(nodeEnv.key);
    PublicOnlyCons(nodeEnv, []);
    PublicOnlyCons(secret, [nodeEnv]);
    PublicOnlyCons(url, [secret, nodeEnv]);
    assert [url] + [secret, nodeEnv] == [url, secret, nodeEnv];
    assert [secret] + [nodeEnv] == [secret, nodeEnv];
  }

  /** In the test's run the server module renders all three keys in schema order and the
      client module only the two public ones. */
  lemma TestPartition(env: Environment)
    requires TestEnvironment(env)
    ensures Generate(TestSchema(), env)
         == Ok(Generated(
              RenderFile([Binding("NEXT_PUBLIC_API_URL", ["https://api.example.com"]),
                          Binding("NODE_ENV", ["development", "production", "test"])], false),
              RenderFile([Binding("NEXT_PUBLIC_API_URL", ["https://api.example.com"]),
                          Binding("SECRET_KEY", ["mysecretkey"]),
                          Binding("NODE_ENV", ["development", "production", "test"])], false)))
  {
    TestSchemaFacts(env);
    GenerateSpec(TestSchema(), env);
    TestVisibility(Binding("NEXT_PUBLIC_API_URL", ["https://api.example.com"]),
                   Binding("SECRET_KEY", ["mysecretkey"]),
                   Binding("NODE_ENV", ["development", "production", "test"]));
  }

  /** The export lines the test looks for, written as the pieces of the test's strings:
      the public URL, the secret and the enumeration typed by all three of its members. */
  lemma TestLines()
    ensures RenderExport("NEXT_PUBLIC_API_URL", ["https://api.example.com"], false)
         == "export const " + "NEXT_PUBLIC_API_URL" + " = process.env." + "NEXT_PUBLIC_API_URL"
            + " as " + "'https://api.example.com'" + ";"
    ensures RenderExport("SECRET_KEY", ["mysecretkey"], false)
         == "export const " + "SECRET_KEY" + " = process.env." + "SECRET_KEY" + " as " + "'mysecretkey'" + ";"
    ensures RenderExport("NODE_ENV", ["development", "production", "test"], false)
         == "export const " + "NODE_ENV" + " = process.env." + "NODE_ENV"
            + " as " + "'development' | 'production' | 'test'" + ";"
  {
    ExportLine("NEXT_PUBLIC_API_URL", ["https://api.example.com"], false);
    QuotedUnionSingle("https://api.example.com");
    ExportLine("SECRET_KEY", ["mysecretkey"], false);
    QuotedUnionSingle("mysecretkey");
    ExportLine("NODE_ENV", ["development", "production", "test"], false);
    QuotedUnionThree(["development", "production", "test"]);
  }

  lemma QuotedUnionThree(members: seq<string>)
    requires members == ["development", "production", "test"]
    ensures QuotedUnion(members) == "'development' | 'production' | 'test'"
  {
    var quoted := seq(|members|, i requires 0 <= i < |members| => Quote(members[i]));
    assert Quote("development") == "'development'";
    assert Quote("production") == "'production'";
    assert Quote("test") == "'test'";
    assert quoted == ["'development'", "'production'", "'test'"];
    assert quoted[1..] == ["'production'", "'test'"] && quoted[1..][1..] == ["'test'"];
    assert Join(quoted[1..][1..], " | ") == "'test'";
    assert Join(quoted[1..], " | ") == "'production'" + " | " + "'test'";
    assert Join(quoted, " | ") == "'development'" + " | " + ("'production'" + " | " + "'test'");
    assert "'production'" + " | " + "'test'" == "'production' | 'test'";
    assert "'development'" + " | " == "'development' | ";
    assert "'development' | " + "'production' | 'test'" == "'development' | 'production' | 'test'";
  }

  /** The repository's test scenario: the client module holds the public URL and the typed
      `NODE_ENV`, the server module holds `SECRET_KEY` as well. */
  lemma TestScenario(env: Environment)
    requires TestEnvironment(env)
    ensures Generate(TestSchema(), env).Ok?
    ensures Contains(Generate(TestSchema(), env).value.client,
                     "export const " + "NEXT_PUBLIC_API_URL" + " = process.env." + "NEXT_PUBLIC_API_URL"
                     + " as " + "'https://api.example.com'" + ";")
    ensures Contains(Generate(TestSchema(), env).value.client,
                     "export const " + "NODE_ENV" + " = process.env." + "NODE_ENV"
                     + " as " + "'development' | 'production' | 'test'" + ";")
    ensures Contains(Generate(TestSchema(), env).value.server,
                     "export const " + "SECRET_KEY" + " = process.env." + "SECRET_KEY" + " as " + "'mysecretkey'" + ";")
  {
    var url := Binding("NEXT_PUBLIC_API_URL", ["https://api.example.com"]);
    var secret := Binding("SECRET_KEY", ["mysecretkey"]);
    var nodeEnv := Binding("NODE_ENV", ["development", "production", "test"]);
    TestPartition(env);
    TestLines();
    RenderFileContainsEach([url, nodeEnv], false, 0);
    RenderFileContainsEach([url, nodeEnv], false, 1);
    RenderFileContainsEach([url, secret, nodeEnv], false, 1);
  }

  /** The repository's failing test: a declared key absent from the environment stops the
      run with its "required" line, and nothing is generated. */
  lemma MissingKeyScenario(env: Environment)
    requires "VALID_ENV" !in env
    ensures Generate([Field("VALID_ENV", Scalar)], env)
         == Err(["VALID_ENV" + MissingSuffix])
  {
    var schema := [Field("VALID_ENV", Scalar)];
    var issue := Issue("VALID_ENV", RequiredMessage);
    assert schema[1..] == [];
    assert Parse(schema, env) == Err([issue]);
    var lines := ValidateEnv(schema, env).error;
    assert |lines| == 1 && lines[0] == IssueLine(issue);
    assert lines == ["VALID_ENV" + MissingSuffix];
  }

  /** The directory the modules are written to, relative to the working directory. */
  const EnvDir := "env"
  const ClientFile := "env.client.ts"
  const ServerFile := "env.server.ts"

  function PathJoin(dir: string, name: string): string
  {
    dir + "/" + name
  }

  const ClientPath := PathJoin(EnvDir, ClientFile)
  const ServerPath := PathJoin(EnvDir, ServerFile)

  /** The message thrown when a module cannot be saved (src/index.ts:23). */
  function SaveFailureMessage(path: string): string
  {
    "unable to save environment file: " + path
  }

  /** How a run ends: normally, or with the message of the error it throws. */
  datatype Outcome = Done | SchemaViolation(message: string) | IOFailure(message: string)

  /** The part of the host filesystem the pipeline uses: directories, file contents, and
      the paths whose writes fail (permissions, a full disk). */
  class Disk {
    var dirs: set<string>
    var files: map<string, string>
    const unwritable: set<string>

    constructor (dirs0: set<string>, files0: map<string, string>, unwritable0: set<string>)
      ensures dirs == dirs0 && files == files0 && unwritable == unwritable0
    {
      dirs := dirs0;
      files := files0;
      unwritable := unwritable0;
    }

    /** `existsSync(dir)`. */
    predicate Exists(dir: string)
      reads this
    {
      dir in dirs
    }

    /** `mkdirSync(dir, { recursive: true })`. */
    method MakeDir(dir: string)
      modifies this
      ensures dirs == old(dirs) + {dir}
      ensures files == old(files)
    {
      dirs := dirs + {dir};
    }

    /** `writeFileSync(dir/name, data)`: a full overwrite, which fails when the directory
        is missing or the path is not writable. */
    method WriteFile(dir: string, name: string, data: string) returns (ok: bool)
      modifies this
      ensures ok == (dir in dirs && PathJoin(dir, name) !in unwritable)
      ensures dirs == old(dirs)
      ensures files == if ok then old(files)[PathJoin(dir, name) := data] else old(files)
    {
      ok := dir in dirs && PathJoin(dir, name) !in unwritable;
      if ok {
        files := files[PathJoin(dir, name) := data];
      }
    }
  }

  /** `withTypedEnv`: on a schema violation the filesystem is untouched; otherwise the
      directory exists afterwards and the client module is written before the server
      module, so a failure on the second write leaves the first one in place. */
  method WithTypedEnv(disk: Disk, schema: Schema, env: Environment) returns (outcome: Outcome)
    modifies disk
    ensures Generate(schema, env).Err? ==>
              && outcome == SchemaViolation(ErrorMessage(Generate(schema, env).error))
              && disk.files == old(disk.files) && disk.dirs == old(disk.dirs)
    ensures Generate(schema, env).Ok? ==>
              var g := Generate(schema, env).value;
              && disk.dirs == old(disk.dirs) + {EnvDir}
              && (ClientPath in disk.unwritable ==>
                    outcome == IOFailure(SaveFailureMessage(ClientPath)) && disk.files == old(disk.files))
              && (ClientPath !in disk.unwritable && ServerPath in disk.unwritable ==>
                    outcome == IOFailure(SaveFailureMessage(ServerPath))
                    && disk.files == old(disk.files)[ClientPath := g.client])
              && (ClientPath !in disk.unwritable && ServerPath !in disk.unwritable ==>
                    outcome == Done
                    && disk.files == old(disk.files)[ClientPath := g.client][ServerPath := g.server])
  {
    var generated := Generate(schema, env);
    if generated.Err? {
      return SchemaViolation(ErrorMessage(generated.error));
    }
    if !disk.Exists(EnvDir) {
      disk.MakeDir(EnvDir);
    }
    var ok := disk.WriteFile(EnvDir, ClientFile, generated.value.client);
    if !ok {
      return IOFailure(SaveFailureMessage(ClientPath));
    }
    ok := disk.WriteFile(EnvDir, ServerFile, generated.value.server);
    if !ok {
      return IOFailure(SaveFailureMessage(ServerPath));
    }
    return Done;
  }
}
