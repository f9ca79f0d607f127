/** `renderEnvExport` and `renderEnvFile` (src/index.ts:9-17): one `export const` line per
    binding, typed by the union of its quoted values or, when literals are stripped, by
    `string`; the lines of a module are separated by one blank line. */
module Renderer {
  import opened Strings
  import opened EnvSchema

  /** The separator between two export lines: one blank line. */
  const LineSeparator := "\n\n"

  /** The type after `as`: the quoted-literal union, or `string` when literals are stripped. */
  function TypeText(values: seq<string>, stripLiterals: bool): string
  {
    if !stripLiterals then QuotedUnion(values) else "string"
  }

  /** `renderEnvExport(key, value)`, the template string trimmed. */
  function RenderExport(key: string, values: seq<string>, stripLiterals: bool): string
  {
    Trim("export const " + key + " = process.env." + key + " as " + TypeText(values, stripLiterals) + ";")
  }

  /** The export line of every binding, in order. */
  function Exports(bs: seq<Binding>, stripLiterals: bool): seq<string>
  {
    seq(|bs|, i requires 0 <= i < |bs| => RenderExport(bs[i].key, bs[i].values, stripLiterals))
  }

  /** `renderEnvFile(env)`. */
  function RenderFile(bs: seq<Binding>, stripLiterals: bool): string
  {
    Join(Exports(bs, stripLiterals), LineSeparator)
  }

  /** Trimming never changes an export line: it starts with `e` and ends with `;`, so the
      line is exactly the template with the key twice and the type text after `as`. */
  lemma ExportLine(key: string, values: seq<string>, stripLiterals: bool)
    ensures RenderExport(key, values, stripLiterals)
         == "export const " + key + " = process.env." + key + " as " + TypeText(values, stripLiterals) + ";"
  {
    var line := "export const " + key + " = process.env." + key + " as " + TypeText(values, stripLiterals) + ";";
    assert line[0] == 'e' && line[|line| - 1] == ';';
    TrimUnchanged(line);
  }

  /** In the default mode every value, enumeration member or scalar, appears in the line
      wrapped in single quotes and otherwise verbatim. */
  lemma DefaultModeQuotesEveryValue(key: string, values: seq<string>, v: string)
    requires v in values
    ensures Contains(RenderExport(key, values, false), "'" + v + "'")
  {
    ExportLine(key, values, false);
    QuotedUnionHasEveryValue(values, v);
    var u := QuotedUnion(values);
    var t := "'" + v + "'";
    var i: nat :| OccursAt(u, t, i);
    var head := "export const " + key + " = process.env." + key + " as ";
    OccursInside(head, u, ";", t, i);
  }

  /** With literals stripped the type is `string` whatever the values: two bindings of the
      same key render alike. */
  lemma StripModeIgnoresValues(key: string, values: seq<string>, others: seq<string>)
    ensures RenderExport(key, values, true) == RenderExport(key, others, true)
    ensures RenderExport(key, values, true)
         == "export const " + key + " = process.env." + key + " as string;"
  {
    ExportLine(key, values, true);
    ExportLine(key, others, true);
  }

  /** The layout of a rendered module: the line of binding `k` starts at its offset, a blank
      line follows it unless it is the last, and the last line ends the text. */
  lemma RenderFileLayout(bs: seq<Binding>, stripLiterals: bool, k: nat)
    requires k < |bs|
    ensures Exports(bs, stripLiterals)[k] == RenderExport(bs[k].key, bs[k].values, stripLiterals)
    ensures OccursAt(RenderFile(bs, stripLiterals), Exports(bs, stripLiterals)[k],
                     Offset(Exports(bs, stripLiterals), LineSeparator, k))
    ensures k + 1 < |bs| ==>
              OccursAt(RenderFile(bs, stripLiterals), LineSeparator,
                       Offset(Exports(bs, stripLiterals), LineSeparator, k) + |Exports(bs, stripLiterals)[k]|)
    ensures k + 1 == |bs| ==>
              Offset(Exports(bs, stripLiterals), LineSeparator, k) + |Exports(bs, stripLiterals)[k]|
              == |RenderFile(bs, stripLiterals)|
  {
    JoinLayout(Exports(bs, stripLiterals), LineSeparator, k);
  }

  /** Every binding's export line is in the module text. */
  lemma RenderFileContainsEach(bs: seq<Binding>, stripLiterals: bool, k: nat)
    requires k < |bs|
    ensures Contains(RenderFile(bs, stripLiterals), RenderExport(bs[k].key, bs[k].values, stripLiterals))
  {
    RenderFileLayout(bs, stripLiterals, k);
    var at := Offset(Exports(bs, stripLiterals), LineSeparator, k);
    assert OccursAt(RenderFile(bs, stripLiterals), RenderExport(bs[k].key, bs[k].values, stripLiterals), at);
  }

  /** Rendering one more binding appends one blank line and its export line; an empty
      object renders as the empty text. */
  lemma RenderFileSnoc(bs: seq<Binding>, b: Binding, stripLiterals: bool)
    ensures RenderFile([], stripLiterals) == ""
    ensures RenderFile(bs + [b], stripLiterals)
         == (if bs == [] then "" else RenderFile(bs, stripLiterals) + LineSeparator)
            + RenderExport(b.key, b.values, stripLiterals)
  {
    var lines := Exports(bs, stripLiterals);
    var line := RenderExport(b.key, b.values, stripLiterals);
    ExportsSnoc(bs, b, stripLiterals);
    if bs == [] {
      assert lines + [line] == [line];
    } else {
      JoinSnoc(lines, line, LineSeparator);
    }
  }

  lemma ExportsSnoc(bs: seq<Binding>, b: Binding, stripLiterals: bool)
    ensures Exports(bs + [b], stripLiterals)
         == Exports(bs, stripLiterals) + [RenderExport(b.key, b.values, stripLiterals)]
  {
  }
}
