/** `validateEnv` (src/index.ts:27-48): the environment is parsed against the schema; on
    failure every problem becomes one line of the thrown message. The schema library is
    replaced by `CheckField` and `Parse`, which follow its object-parsing behaviour: every
    declared key is checked, unknown keys are dropped, and all problems are collected. */
module Validator {
  import opened Wrappers
  import opened Strings
  import opened EnvSchema

  /** A snapshot of the process environment. */
  type Environment = map<string, string>

  /** One problem reported by the schema library: the key (its path) and a message. */
  datatype Issue = Issue(key: string, message: string)

  /** The library's message for a key whose value is `undefined`. */
  const RequiredMessage := "Required"

  /** What a missing key's line says after the key. */
  const MissingSuffix := " required in schema but missing in environment"

  /** The library's message for a value outside an enumeration; the model treats its
      wording as opaque and relies only on it differing from `RequiredMessage`. */
  function EnumMismatchMessage(members: seq<string>, received: string): string
  {
    "Invalid enum value. Expected " + QuotedUnion(members) + ", received '" + received + "'"
  }

  /** The reference meaning of "the environment satisfies this key's descriptor". */
  predicate Conforms(f: Field, env: Environment)
  {
    f.key in env && (f.desc.Enum? ==> env[f.key] in f.desc.members)
  }

  /** The library's check of one key. */
  function CheckField(f: Field, env: Environment): (r: Result<string, Issue>)
    ensures r.Ok? <==> Conforms(f, env)
    ensures r.Ok? ==> r.value == env[f.key]
    ensures r.Err? ==> r.error.key == f.key && (r.error.message == RequiredMessage <==> f.key !in env)
  {
    if f.key !in env then Err(Issue(f.key, RequiredMessage))
    else match f.desc
      case Scalar => Ok(env[f.key])
      case Enum(members) =>
        if env[f.key] in members then Ok(env[f.key])
        else Err(Issue(f.key, EnumMismatchMessage(members, env[f.key])))
  }

  /** The issues of the keys that do not conform, in schema order. */
  function Problems(schema: Schema, env: Environment): (r: seq<Issue>)
    ensures r == [] <==> forall i :: 0 <= i < |schema| ==> Conforms(schema[i], env)
  {
    if schema == [] then []
    else
      var rest := Problems(schema[1..], env);
      if Conforms(schema[0], env) then rest else [CheckField(schema[0], env).error] + rest
  }

  /** `schema.parse(env)`: the record over exactly the schema's keys, in schema order, each
      with its environment value, when every key conforms; otherwise the issue of every
      key that does not. */
  function Parse(schema: Schema, env: Environment): (r: Result<seq<Entry>, seq<Issue>>)
    ensures r.Ok? <==> forall i :: 0 <= i < |schema| ==> Conforms(schema[i], env)
    ensures r.Ok? ==> |r.value| == |schema|
    ensures r.Ok? ==> forall i :: 0 <= i < |schema| ==>
              schema[i].key in env && r.value[i] == Entry(schema[i].key, env[schema[i].key])
    ensures r.Err? ==> r.error == Problems(schema, env) && r.error != []
  {
    if schema == [] then Ok([])
    else
      var first := CheckField(schema[0], env);
      var rest := Parse(schema[1..], env);
      match (first, rest)
      case (Ok(v), Ok(entries)) => Ok([Entry(schema[0].key, v)] + entries)
      case (Ok(_), Err(issues)) => Err(issues)
      case (Err(issue), Ok(_)) => Err([issue])
      case (Err(issue), Err(issues)) => Err([issue] + issues)
  }

  /** One line of the thrown message (src/index.ts:36-40). */
  function IssueLine(issue: Issue): string
  {
    if issue.message == RequiredMessage then issue.key + MissingSuffix
    else issue.key + " " + issue.message
  }

  /** `validateEnv`: the record, or the message lines of every problem. */
  function ValidateEnv(schema: Schema, env: Environment): Result<seq<Entry>, seq<string>>
  {
    match Parse(schema, env)
    case Ok(rec) => Ok(rec)
    case Err(issues) => Err(seq(|issues|, i requires 0 <= i < |issues| => IssueLine(issues[i])))
  }

  /** The text of the thrown error: the lines joined by newlines. */
  function ErrorMessage(lines: seq<string>): string
  {
    Join(lines, "\n")
  }

  /** Every non-conforming key has exactly its own issue among the problems, and every
      problem belongs to a non-conforming key. */
  lemma {:induction false} ProblemsMembers(schema: Schema, env: Environment, x: Issue)
    ensures x in Problems(schema, env) <==>
              exists i :: 0 <= i < |schema| && !Conforms(schema[i], env) && x == CheckField(schema[i], env).error
  {
    if schema != [] {
      ProblemsMembers(schema[1..], env, x);
      if x in Problems(schema[1..], env) {
        var i :| 0 <= i < |schema[1..]| && !Conforms(schema[1..][i], env) && x == CheckField(schema[1..][i], env).error;
        assert schema[1..][i] == schema[i + 1];
      }
      if exists i :: 0 <= i < |schema| && !Conforms(schema[i], env) && x == CheckField(schema[i], env).error {
        var i :| 0 <= i < |schema| && !Conforms(schema[i], env) && x == CheckField(schema[i], env).error;
        if i > 0 {
          assert schema[1..][i - 1] == schema[i];
        }
      }
    }
  }

  /** The problems of a schema with one more key are the earlier problems, then that
      key's issue if it does not conform. */
  lemma {:induction false} ProblemsSnoc(schema: Schema, env: Environment)
    requires |schema| > 0
    ensures var last := schema[|schema| - 1];
            Problems(schema, env) == Problems(schema[..|schema| - 1], env)
              + (if Conforms(last, env) then [] else [CheckField(last, env).error])
  {
    if |schema| > 1 {
      assert schema[1..][..|schema| - 2] == schema[..|schema| - 1][1..];
      assert schema[1..][|schema| - 2] == schema[|schema| - 1];
      ProblemsSnoc(schema[1..], env);
    }
  }

  /** There is one problem per non-conforming key. */
  lemma {:induction false} ProblemsCount(schema: Schema, env: Environment)
    ensures |Problems(schema, env)| == |set i | 0 <= i < |schema| && !Conforms(schema[i], env)|
  {
    var n := |schema|;
    if n > 0 {
      var init := schema[..n - 1];
      ProblemsSnoc(schema, env);
      ProblemsCount(init, env);
      var bad := set i | 0 <= i < n && !Conforms(schema[i], env);
      var badInit := set i | 0 <= i < |init| && !Conforms(init[i], env);
      assert badInit == bad - {n - 1} by {
        forall i | 0 <= i < n - 1 ensures init[i] == schema[i] { }
      }
      if Conforms(schema[n - 1], env) {
        assert bad == badInit;
      } else {
        assert bad == badInit + {n - 1};
        assert n - 1 !in badInit;
      }
    }
  }

  /** Keys the schema does not declare are ignored: two environments that agree on the
      schema's keys validate alike. */
  lemma {:induction false} ParseIgnoresUndeclaredKeys(schema: Schema, env1: Environment, env2: Environment)
    requires forall i :: 0 <= i < |schema| ==> (schema[i].key in env1 <==> schema[i].key in env2)
    requires forall i :: 0 <= i < |schema| && schema[i].key in env1 ==> env1[schema[i].key] == env2[schema[i].key]
    ensures Parse(schema, env1) == Parse(schema, env2)
  {
    if schema != [] {
      forall i | 0 <= i < |schema[1..]|
        ensures schema[1..][i].key in env1 <==> schema[1..][i].key in env2
        ensures schema[1..][i].key in env1 ==> env1[schema[1..][i].key] == env2[schema[1..][i].key]
      {
        assert schema[1..][i] == schema[i + 1];
      }
      ParseIgnoresUndeclaredKeys(schema[1..], env1, env2);
    }
  }

  /** Validation succeeds exactly when every declared key is present and conforms; then the
      record holds exactly the schema's keys, in order, with the environment's values. */
  lemma ValidateEnvSucceeds(schema: Schema, env: Environment)
    ensures ValidateEnv(schema, env).Ok? <==> forall i :: 0 <= i < |schema| ==> Conforms(schema[i], env)
    ensures ValidateEnv(schema, env).Ok? ==>
              EntryKeys(ValidateEnv(schema, env).value) == SchemaKeys(schema)
  {
    var r := Parse(schema, env);
    if r.Ok? {
      assert EntryKeys(r.value) == SchemaKeys(schema);
    }
  }

  /** A declared key missing from the environment fails validation, with the line
      "<key> required in schema but missing in environment" in the message. */
  lemma MissingKeyFails(schema: Schema, env: Environment, i: nat)
    requires i < |schema| && schema[i].key !in env
    ensures ValidateEnv(schema, env).Err?
    ensures schema[i].key + MissingSuffix in ValidateEnv(schema, env).error
    ensures Contains(ErrorMessage(ValidateEnv(schema, env).error), schema[i].key + MissingSuffix)
  {
    var issues := Parse(schema, env).error;
    var issue := CheckField(schema[i], env).error;
    ProblemsMembers(schema, env, issue);
    var k :| 0 <= k < |issues| && issues[k] == issue;
    var lines := ValidateEnv(schema, env).error;
    assert lines[k] == schema[i].key + MissingSuffix;
    JoinContainsEachPart(lines, "\n", k);
  }

  /** On failure each line names one offending key: a missing key with the "required"
      line, a present one with the library's reason; and every offending key has a line. */
  lemma FailureLines(schema: Schema, env: Environment)
    requires ValidateEnv(schema, env).Err?
    ensures forall line :: line in ValidateEnv(schema, env).error ==>
              exists i :: 0 <= i < |schema| && !Conforms(schema[i], env) &&
                line == (if schema[i].key in env
                         then schema[i].key + " " + CheckField(schema[i], env).error.message
                         else schema[i].key + MissingSuffix)
    ensures forall i :: 0 <= i < |schema| && !Conforms(schema[i], env) ==>
              IssueLine(CheckField(schema[i], env).error) in ValidateEnv(schema, env).error
  {
    var issues := Parse(schema, env).error;
    var lines := ValidateEnv(schema, env).error;
    forall line | line in lines
      ensures exists i :: 0 <= i < |schema| && !Conforms(schema[i], env) &&
                line == (if schema[i].key in env
                         then schema[i].key + " " + CheckField(schema[i], env).error.message
                         else schema[i].key + MissingSuffix)
    {
      var k :| 0 <= k < |lines| && lines[k] == line;
      ProblemsMembers(schema, env, issues[k]);
    }
    forall i | 0 <= i < |schema| && !Conforms(schema[i], env)
      ensures IssueLine(CheckField(schema[i], env).error) in lines
    {
      ProblemsMembers(schema, env, CheckField(schema[i], env).error);
      var k :| 0 <= k < |issues| && issues[k] == CheckField(schema[i], env).error;
      assert lines[k] == IssueLine(issues[k]);
    }
  }
}
