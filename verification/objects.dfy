/**
 * The two ways the connector builds JavaScript objects.
 *
 * An object literal `{ out1: e1, out2: e2, ... }` whose entries read fields
 * of one source object (the `simplify*` projections), and a dictionary
 * filled by a run of guarded assignments `if (test(src.from)) q.to = v`
 * (the query and body builders of the handlers). Both are described here
 * by a table, and each has a general lemma saying what the table produces.
 */
module Objects {
  import opened Json

  /** Where a literal entry takes its value: a field, a `snake || camel`
      pair, or a value fixed by the caller. */
  datatype Source = Field(key: string) | Either(snake: string, camel: string) | Fixed(v: Value)

  datatype Entry = Entry(out: string, from: Source)

  function Eval(src: Dict, s: Source): (v: Value)
    ensures s.Field? ==> v == Get(src, s.key)
    ensures s.Either? && Truthy(Get(src, s.snake)) ==> v == Get(src, s.snake)
    ensures s.Either? && !Truthy(Get(src, s.snake)) ==> v == Get(src, s.camel)
    ensures s.Fixed? ==> v == s.v
  {
    match s
    case Field(k) => Get(src, k)
    case Either(a, b) => Or(Get(src, a), Get(src, b))
    case Fixed(v) => v
  }

  /** The source keys an entry reads. */
  function Reads(s: Source): set<string>
  {
    match s
    case Field(k) => {k}
    case Either(a, b) => {a, b}
    case Fixed(_) => {}
  }

  /** The keys an object literal writes. */
  function Outs(entries: seq<Entry>): set<string>
  {
    set e | e in entries :: e.out
  }

  ghost predicate DistinctOuts(entries: seq<Entry>)
  {
    forall i, j :: 0 <= i < j < |entries| ==> entries[i].out != entries[j].out
  }

  /** The object literal: entries are written in order, so a later entry
      with the same key would win. */
  function Literal(src: Dict, entries: seq<Entry>): Dict
  {
    if entries == [] then map[]
    else Literal(src, entries[..|entries| - 1])[entries[|entries| - 1].out := Eval(src, entries[|entries| - 1].from)]
  }

  /** An object literal with distinct keys has exactly those keys, and each
      holds the value of its own entry. */
  lemma {:induction false} LiteralFields(src: Dict, entries: seq<Entry>)
    requires DistinctOuts(entries)
    ensures Literal(src, entries).Keys == Outs(entries)
    ensures forall i :: 0 <= i < |entries| ==>
              entries[i].out in Literal(src, entries) && Literal(src, entries)[entries[i].out] == Eval(src, entries[i].from)
  {
    if entries != [] {
      var init := entries[..|entries| - 1];
      assert DistinctOuts(init);
      LiteralFields(src, init);
      assert entries == init + [entries[|entries| - 1]];
      assert Outs(entries) == Outs(init) + {entries[|entries| - 1].out};
      forall i | 0 <= i < |entries|
        ensures entries[i].out in Literal(src, entries) && Literal(src, entries)[entries[i].out] == Eval(src, entries[i].from)
      {
        if i < |entries| - 1 {
          assert entries[i] == init[i];
          assert entries[i].out != entries[|entries| - 1].out;
        }
      }
    }
  }

  /** Every source key some entry reads. */
  function AllReads(entries: seq<Entry>): set<string>
  {
    if entries == [] then {}
    else AllReads(entries[..|entries| - 1]) + Reads(entries[|entries| - 1].from)
  }

  /** An object literal depends only on the fields its entries read: any
      other key of the source is dropped. */
  lemma {:induction false} LiteralReadsOnly(a: Dict, b: Dict, entries: seq<Entry>)
    requires forall k :: k in AllReads(entries) ==> Get(a, k) == Get(b, k)
    ensures Literal(a, entries) == Literal(b, entries)
  {
    if entries != [] {
      var last := entries[|entries| - 1];
      LiteralReadsOnly(a, b, entries[..|entries| - 1]);
      forall k | k in Reads(last.from) ensures Get(a, k) == Get(b, k) {
        assert k in AllReads(entries);
      }
      assert Eval(a, last.from) == Eval(b, last.from);
    }
  }

  /** The test guarding one assignment. */
  datatype Test = IfTruthy | IfDefined | Always

  predicate Passes(t: Test, v: Value)
  {
    match t
    case IfTruthy => Truthy(v)
    case IfDefined => v != Undefined
    case Always => true
  }

  /** The value written: the field itself, or its date conversion. */
  datatype Conv = AsIs | Date

  /** `if (test(src[from])) q[to] = conv(src[from])`. */
  datatype Rule = Rule(to: string, from: string, test: Test, conv: Conv)

  function Convert(c: Conv, v: Value, toIso: Value -> Value): Value
  {
    match c
    case AsIs => v
    case Date => toIso(v)
  }

  /** One guarded assignment. */
  function Apply(q: Dict, src: Dict, rule: Rule, toIso: Value -> Value): Dict
  {
    PutIf(q, Passes(rule.test, Get(src, rule.from)), rule.to, Convert(rule.conv, Get(src, rule.from), toIso))
  }

  /** A run of guarded assignments, in order, on `q`. */
  function Fill(q: Dict, src: Dict, rules: seq<Rule>, toIso: Value -> Value): Dict
  {
    if rules == [] then q
    else Apply(Fill(q, src, rules[..|rules| - 1], toIso), src, rules[|rules| - 1], toIso)
  }

  ghost predicate DistinctTargets(rules: seq<Rule>)
  {
    forall i, j :: 0 <= i < j < |rules| ==> rules[i].to != rules[j].to
  }

  /** The keys a run of guarded assignments may write. */
  function Targets(rules: seq<Rule>): set<string>
  {
    set r | r in rules :: r.to
  }

  /** The rule `rule` decided key `rule.to` of `q`: present exactly when its
      test passes on the source field, holding the converted field. */
  ghost predicate Decided(q: Dict, src: Dict, rule: Rule, toIso: Value -> Value)
  {
    IncludedIff(q, rule.to, Passes(rule.test, Get(src, rule.from)), Convert(rule.conv, Get(src, rule.from), toIso))
  }

  /** A run of guarded assignments keeps every key already present and
      writes no key outside its targets. */
  lemma {:induction false} FillFrame(q: Dict, src: Dict, rules: seq<Rule>, toIso: Value -> Value)
    requires forall i :: 0 <= i < |rules| ==> rules[i].to !in q
    ensures Fill(q, src, rules, toIso).Keys <= q.Keys + Targets(rules)
    ensures forall k :: k in q ==> k in Fill(q, src, rules, toIso) && Fill(q, src, rules, toIso)[k] == q[k]
  {
    if rules != [] {
      var init := rules[..|rules| - 1];
      FillFrame(q, src, init, toIso);
      assert rules == init + [rules[|rules| - 1]];
      assert Targets(rules) == Targets(init) + {rules[|rules| - 1].to};
    }
  }

  /** What a run of guarded assignments with distinct targets produces from a
      dictionary holding none of them: the keys already there are kept
      unchanged, each target is present exactly when its test passes and
      then holds its converted field, and no other key appears. */
  lemma {:induction false} FillSpec(q: Dict, src: Dict, rules: seq<Rule>, toIso: Value -> Value)
    requires DistinctTargets(rules)
    requires forall i :: 0 <= i < |rules| ==> rules[i].to !in q
    ensures Fill(q, src, rules, toIso).Keys <= q.Keys + Targets(rules)
    ensures forall k :: k in q ==> k in Fill(q, src, rules, toIso) && Fill(q, src, rules, toIso)[k] == q[k]
    ensures forall i :: 0 <= i < |rules| ==> Decided(Fill(q, src, rules, toIso), src, rules[i], toIso)
  {
    FillFrame(q, src, rules, toIso);
    if rules != [] {
      var init := rules[..|rules| - 1];
      var last := rules[|rules| - 1];
      assert DistinctTargets(init);
      FillSpec(q, src, init, toIso);
      assert last.to !in Fill(q, src, init, toIso) by {
        assert last.to !in q;
        assert last.to !in Targets(init);
      }
      forall i | 0 <= i < |rules| - 1
        ensures Decided(Fill(q, src, rules, toIso), src, rules[i], toIso)
      {
        assert rules[i] == init[i];
        assert rules[i].to != last.to;
      }
    }
  }

  /** When no test passes, nothing is written. */
  lemma {:induction false} FillNothingPasses(q: Dict, src: Dict, rules: seq<Rule>, toIso: Value -> Value)
    requires forall i :: 0 <= i < |rules| ==> !Passes(rules[i].test, Get(src, rules[i].from))
    ensures Fill(q, src, rules, toIso) == q
  {
    if rules != [] {
      FillNothingPasses(q, src, rules[..|rules| - 1], toIso);
    }
  }

  /** Guarded assignments none of which is unconditional write nothing
      from an empty source. */
  lemma FillOfNothing(q: Dict, rules: seq<Rule>, toIso: Value -> Value)
    requires forall i :: 0 <= i < |rules| ==> rules[i].test != Always
    ensures Fill(q, map[], rules, toIso) == q
  {
    FillNothingPasses(q, map[], rules, toIso);
  }

  /** A run of guarded assignments depends only on the fields it reads. */
  lemma {:induction false} FillReadsOnly(q: Dict, a: Dict, b: Dict, rules: seq<Rule>, toIso: Value -> Value)
    requires forall i :: 0 <= i < |rules| ==> Get(a, rules[i].from) == Get(b, rules[i].from)
    ensures Fill(q, a, rules, toIso) == Fill(q, b, rules, toIso)
  {
    if rules != [] {
      FillReadsOnly(q, a, b, rules[..|rules| - 1], toIso);
      assert Get(a, rules[|rules| - 1].from) == Get(b, rules[|rules| - 1].from);
    }
  }
}
