/**
 * The template registry of the command-line tool (`TEMPLATES` in bin/cli.js),
 * the choice list the interactive template prompt is built from, and the lines
 * the `list` command prints.
 */
module Registry {
  import opened Wrappers
  import opened JsText

  datatype Template = Template(key: string, name: string, description: string)

  /** The registry, in registration order (the order `Object.entries` yields). */
  const Templates: seq<Template> := [
    Template("node", "Node.js (基础)", "基础Node.js项目模板"),
    Template("react", "React", "React项目模板"),
    Template("vue", "Vue", "Vue项目模板")
  ]

  predicate IsKey(key: string)
  {
    exists i :: 0 <= i < |Templates| && Templates[i].key == key
  }

  function LookupIn(ts: seq<Template>, key: string): (r: Option<Template>)
    ensures r.None? <==> forall i :: 0 <= i < |ts| ==> ts[i].key != key
    ensures r.Some? ==> r.value.key == key && r.value in ts
  {
    if ts == [] then None
    else if ts[0].key == key then Some(ts[0])
    else LookupIn(ts[1..], key)
  }

  /** `TEMPLATES[key]`: the entry registered under `key`, if any. */
  function Lookup(key: string): (r: Option<Template>)
    ensures r.Some? <==> IsKey(key)
    ensures r.Some? ==> r.value.key == key && r.value in Templates
  {
    LookupIn(Templates, key)
  }

  /** One option of the interactive template prompt: label shown, value returned. */
  datatype Choice = Choice(name: string, value: string)

  function ChoiceOf(t: Template): Choice
  {
    Choice(t.name + " - " + t.description, t.key)
  }

  /** The prompt's choices, one per registry entry, in registration order. */
  function Choices(): (cs: seq<Choice>)
    ensures |cs| == |Templates|
    ensures forall i :: 0 <= i < |cs| ==> cs[i] == ChoiceOf(Templates[i])
  {
    seq(|Templates|, i requires 0 <= i < |Templates| => ChoiceOf(Templates[i]))
  }

  /** The values the prompt can answer with: the registry keys, in registration order. */
  function ChoiceValues(): (vs: seq<string>)
    ensures |vs| == |Templates|
    ensures forall i :: 0 <= i < |vs| ==> vs[i] == Templates[i].key
  {
    seq(|Choices()|, i requires 0 <= i < |Choices()| => Choices()[i].value)
  }

  /** The prompt offers exactly the keys `node`, `react`, `vue`, in that order. */
  lemma ChoiceValuesAreKeys()
    ensures ChoiceValues() == ["node", "react", "vue"]
  {
  }

  /** Every answer the prompt can give passes the registry check. */
  lemma ChoicesAreRegistered(answer: string)
    requires answer in ChoiceValues()
    ensures Lookup(answer).Some?
  {
    var i :| 0 <= i < |ChoiceValues()| && ChoiceValues()[i] == answer;
    assert Templates[i].key == answer;
  }

  /** The registry keys are distinct, so each key names one entry. */
  lemma KeysDistinct()
    ensures forall i, j :: 0 <= i < j < |Templates| ==> Templates[i].key != Templates[j].key
  {
  }

  /** One line of `list`: two spaces, the key padded to 10, ` - `, name, `: `, description. */
  function ListLine(t: Template): string
  {
    "  " + PadEnd(t.key, 10) + " - " + t.name + ": " + t.description
  }

  /** Everything `list` prints, one element per `console.log` call. */
  function ListOutput(): (out: seq<string>)
    ensures |out| == |Templates| + 2
    ensures out[0] == "\n可用模板：" && out[|out| - 1] == ""
    ensures forall i :: 0 <= i < |Templates| ==> out[i + 1] == ListLine(Templates[i])
  {
    ["\n可用模板："] + seq(|Templates|, i requires 0 <= i < |Templates| => ListLine(Templates[i])) + [""]
  }

  /**
   * Where the parts of a list line sit: the key starts at column 2, spaces fill
   * up to the padded width, and ` - ` follows at column 2 + max(|key|, 10).
   */
  lemma ListLineLayout(t: Template)
    ensures var w := if |t.key| >= 10 then |t.key| else 10;
            var line := ListLine(t);
            |line| == 5 + w + |t.name| + 2 + |t.description|
            && line[..2] == "  "
            && line[2..2 + |t.key|] == t.key
            && (forall i :: 2 + |t.key| <= i < 2 + w ==> line[i] == ' ')
            && line[2 + w..5 + w] == " - "
            && line[5 + w..] == t.name + ": " + t.description
  {
    var w := if |t.key| >= 10 then |t.key| else 10;
    var p := PadEnd(t.key, 10);
    var tail := " - " + (t.name + ": " + t.description);
    var line := ListLine(t);
    assert line == "  " + p + tail;
    ThreeParts("  ", p, tail);
    assert line[2..2 + |t.key|] == p[..|t.key|];
    assert line[2 + w..5 + w] == tail[..3];
    assert line[5 + w..] == tail[3..];
  }

  /** The three pieces of `a + b + c` sit where their lengths say. */
  lemma ThreeParts(a: string, b: string, c: string)
    ensures var s := a + b + c;
            s[..|a|] == a && s[|a|..|a| + |b|] == b && s[|a| + |b|..] == c
  {
    var s := a + b + c;
    assert s[..|a|] == a;
    assert s[|a|..|a| + |b|] == b;
    assert s[|a| + |b|..] == c;
  }

  /** All registry keys fit the padding, so every line puts ` - ` at column 12. */
  lemma ListColumnsAligned()
    ensures forall i :: 1 <= i <= |Templates| ==> ListOutput()[i][12..15] == " - "
  {
    forall i | 1 <= i <= |Templates|
      ensures ListOutput()[i][12..15] == " - "
    {
      ListLineLayout(Templates[i - 1]);
    }
  }
}
