/**
 * The config-file loader run at start-up (bot_service.py:27-40): lines of
 * `key=value` text are copied into the process environment, one line at a
 * time, until a line that cannot be split aborts the rest of the file.
 */
module ConfigFile {
  import opened Maybe
  import opened Text

  /** The environment variable that names the webhook. */
  const WebhookKey := "DISCORD_WEBHOOK_URL"

  /** What one line of the file does to the environment. */
  datatype LineEffect =
    | Skip                              // blank, or a comment
    | Assign(key: string, value: string)
    | Malformed                         // no `=`: unpacking the split raises

  /**
   * One line: skipped when its stripped text is empty or its raw text starts
   * with `#`; otherwise split at the first `=` of the stripped text, the value
   * losing quote characters (and only those) at both ends.
   */
  function ClassifyLine(line: string): LineEffect {
    var t := Strip(line);
    if t == [] || (|line| > 0 && line[0] == '#') then Skip
    else match IndexOf(t, '=')
      case None => Malformed
      case Some(i) => Assign(t[..i], StripQuotes(t[i + 1..]))
  }

  /**
   * A line is skipped exactly when it is all whitespace or its raw text starts
   * with `#`; any other line without `=` is malformed; an assigning line's
   * key is the stripped text before its first `=`, which the key never holds,
   * and its value is the rest with quotes stripped from both ends.
   */
  lemma ClassifyLineMeaning(line: string)
    ensures ClassifyLine(line).Skip? <==> AllSpace(line) || (|line| > 0 && line[0] == '#')
    ensures ClassifyLine(line).Malformed? <==> !ClassifyLine(line).Skip? && '=' !in Strip(line)
    ensures ClassifyLine(line).Assign? ==>
      var t := Strip(line);
      var key := ClassifyLine(line).key;
      && |key| < |t| && t[..|key|] == key && t[|key|] == '='
      && (forall j :: 0 <= j < |key| ==> key[j] != '=')
      && ClassifyLine(line).value == StripQuotes(t[|key| + 1..])
  {
    StripEmptyIff(line);
    var t := Strip(line);
    match IndexOf(t, '=')
    case None =>
    case Some(i) =>
  }

  /** What each line of the file does, read on its own. */
  function Effects(lines: seq<string>): (es: seq<LineEffect>)
    ensures |es| == |lines|
    ensures forall i :: 0 <= i < |lines| ==> es[i] == ClassifyLine(lines[i])
  {
    seq(|lines|, i requires 0 <= i < |lines| => ClassifyLine(lines[i]))
  }

  /** The assignments made, in order, and whether the load stopped on a malformed line. */
  datatype Parsed = Parsed(assignments: seq<(string, string)>, aborted: bool)

  /** What one more line does to the outcome so far: nothing once aborted. */
  function Apply(p: Parsed, e: LineEffect): Parsed {
    if p.aborted then p
    else match e
      case Skip => p
      case Malformed => Parsed(p.assignments, true)
      case Assign(k, v) => Parsed(p.assignments + [(k, v)], false)
  }

  /** The effect of the whole file, line after line, as the loader's loop performs it. */
  function Run(es: seq<LineEffect>): Parsed
    decreases |es|
  {
    if es == [] then Parsed([], false) else Apply(Run(es[..|es| - 1]), es[|es| - 1])
  }

  /** The loader's result for a whole file. */
  function ParseLines(lines: seq<string>): Parsed {
    Run(Effects(lines))
  }

  /** Index of the first malformed line, or `|es|` when there is none. */
  function FirstMalformed(es: seq<LineEffect>): (n: nat)
    ensures n <= |es|
    ensures forall i :: 0 <= i < n ==> !es[i].Malformed?
    ensures n < |es| ==> es[n].Malformed?
  {
    if es == [] || es[0].Malformed? then 0
    else 1 + FirstMalformed(es[1..])
  }

  /** The assignments of the given lines taken independently of each other, in order. */
  function AssignmentsOf(es: seq<LineEffect>): seq<(string, string)> {
    if es == [] then []
    else (if es[0].Assign? then [(es[0].key, es[0].value)] else []) + AssignmentsOf(es[1..])
  }

  lemma {:induction false} AssignmentsOfSnoc(es: seq<LineEffect>, e: LineEffect)
    ensures AssignmentsOf(es + [e]) == AssignmentsOf(es) + if e.Assign? then [(e.key, e.value)] else []
    decreases |es|
  {
    if es != [] {
      assert (es + [e])[1..] == es[1..] + [e];
      AssignmentsOfSnoc(es[1..], e);
    }
  }

  lemma {:induction false} FirstMalformedSnoc(es: seq<LineEffect>, e: LineEffect)
    ensures FirstMalformed(es + [e]) ==
      if FirstMalformed(es) < |es| then FirstMalformed(es)
      else if e.Malformed? then |es| else |es| + 1
    decreases |es|
  {
    if es != [] {
      assert (es + [e])[1..] == es[1..] + [e];
      FirstMalformedSnoc(es[1..], e);
    }
  }

  /**
   * The loader's outcome in one statement: it aborts exactly when some line is
   * malformed, and the assignments it makes are those of the lines before the
   * first malformed line, blank and comment lines contributing none.
   */
  lemma {:induction false} RunMeaning(es: seq<LineEffect>)
    ensures Run(es).aborted <==> FirstMalformed(es) < |es|
    ensures Run(es).assignments == AssignmentsOf(es[..FirstMalformed(es)])
    decreases |es|
  {
    if es != [] {
      var init, last := es[..|es| - 1], es[|es| - 1];
      RunMeaning(init);
      FirstMalformedSnoc(init, last);
      assert init + [last] == es;
      if FirstMalformed(init) == |init| {
        assert es[..|init|] == init && init[..|init|] == init && es[..|es|] == es;
        AssignmentsOfSnoc(init, last);
      } else {
        assert es[..FirstMalformed(es)] == init[..FirstMalformed(init)];
      }
    }
  }

  /** Once a line has aborted the load, no later line changes the outcome. */
  lemma {:induction false} AbortIsFinal(es: seq<LineEffect>, n: nat)
    requires n <= |es| && Run(es[..n]).aborted
    ensures Run(es) == Run(es[..n])
    decreases |es| - n
  {
    if n < |es| {
      assert es[..n + 1][..n] == es[..n];
      AbortIsFinal(es, n + 1);
    } else {
      assert es[..n] == es;
    }
  }

  /** The environment after the assignments, applied in order. */
  function ApplyAll(env: map<string, string>, assignments: seq<(string, string)>): map<string, string>
    decreases |assignments|
  {
    if assignments == [] then env
    else
      var (k, v) := assignments[|assignments| - 1];
      ApplyAll(env, assignments[..|assignments| - 1])[k := v]
  }

  /** The value the last assignment to `key` gives it, if any assigns it. */
  function LastValue(assignments: seq<(string, string)>, key: string): Option<string>
    decreases |assignments|
  {
    if assignments == [] then None
    else if assignments[|assignments| - 1].0 == key then Some(assignments[|assignments| - 1].1)
    else LastValue(assignments[..|assignments| - 1], key)
  }

  /** Later lines win: a key holds its last assigned value, and untouched keys keep theirs. */
  lemma {:induction false} ApplyAllLookup(env: map<string, string>, assignments: seq<(string, string)>, key: string)
    ensures LastValue(assignments, key).Some? ==>
      key in ApplyAll(env, assignments) && ApplyAll(env, assignments)[key] == LastValue(assignments, key).value
    ensures LastValue(assignments, key).None? ==>
      (key in ApplyAll(env, assignments) <==> key in env)
      && (key in env ==> ApplyAll(env, assignments)[key] == env[key])
    decreases |assignments|
  {
    if assignments != [] {
      ApplyAllLookup(env, assignments[..|assignments| - 1], key);
    }
  }

  /**
   * The loop of bot_service.py:33-37: each line is applied to the environment
   * as it is read; a malformed line raises, which leaves the loop with the
   * earlier assignments in place.
   */
  method LoadFile(env: map<string, string>, lines: seq<string>) returns (env': map<string, string>, failed: bool)
    ensures failed <==> FirstMalformed(Effects(lines)) < |lines|
    ensures env' == ApplyAll(env, AssignmentsOf(Effects(lines)[..FirstMalformed(Effects(lines))]))
  {
    ghost var es := Effects(lines);
    env', failed := env, false;
    var i := 0;
    while i < |lines| && !failed
      invariant 0 <= i <= |lines|
      invariant Run(es[..i]).aborted == failed
      invariant env' == ApplyAll(env, Run(es[..i]).assignments)
    {
      ghost var before := Run(es[..i]);
      assert es[..i + 1][..i] == es[..i];
      assert Run(es[..i + 1]) == Apply(before, es[i]);
      match ClassifyLine(lines[i]) {
        case Skip =>
        case Malformed =>
          failed := true;
        case Assign(k, v) =>
          ApplyAllSnoc(env, before.assignments, (k, v));
          env' := env'[k := v];
      }
      i := i + 1;
    }
    LoadFileOutcome(es, i, failed);
  }

  lemma ApplyAllSnoc(env: map<string, string>, assignments: seq<(string, string)>, kv: (string, string))
    ensures ApplyAll(env, assignments + [kv]) == ApplyAll(env, assignments)[kv.0 := kv.1]
  {
    assert (assignments + [kv])[..|assignments|] == assignments;
  }

  /** Where the loop of `LoadFile` stops, the outcome so far is that of the whole file. */
  lemma LoadFileOutcome(es: seq<LineEffect>, i: nat, failed: bool)
    requires i <= |es| && Run(es[..i]).aborted == failed && (i == |es| || failed)
    ensures Run(es[..i]) == Run(es)
    ensures failed <==> FirstMalformed(es) < |es|
    ensures Run(es).assignments == AssignmentsOf(es[..FirstMalformed(es)])
  {
    if failed {
      AbortIsFinal(es, i);
    } else {
      assert es[..i] == es;
    }
    RunMeaning(es);
  }

  /** Python's `os.getenv(key)`. */
  function Getenv(env: map<string, string>, key: string): Option<string> {
    if key in env then Some(env[key]) else None
  }

  /** Whether an optional string is truthy in Python: present and non-empty. */
  predicate Truthy(s: Option<string>) {
    s.Some? && s.value != []
  }

  /**
   * bot_service.py:27-40: the file (None when it is missing or cannot be
   * opened) is read only when the environment gives no webhook, and the
   * webhook is read again only when the whole file loaded without error.
   */
  method LoadConfig(env: map<string, string>, file: Option<seq<string>>)
    returns (env': map<string, string>, webhook: Option<string>)
    ensures Truthy(Getenv(env, WebhookKey)) || file.None? ==> env' == env && webhook == Getenv(env, WebhookKey)
    ensures !Truthy(Getenv(env, WebhookKey)) && file.Some? ==>
      && env' == ApplyAll(env, ParseLines(file.value).assignments)
      && webhook == if ParseLines(file.value).aborted then Getenv(env, WebhookKey) else Getenv(env', WebhookKey)
  {
    env', webhook := env, Getenv(env, WebhookKey);
    if !Truthy(webhook) && file.Some? {
      var failed;
      env', failed := LoadFile(env, file.value);
      RunMeaning(Effects(file.value));
      if !failed {
        webhook := Getenv(env', WebhookKey);
      }
    }
  }

  lemma StripExampleLine()
    ensures Strip(" K= \"v\" \n") == "K= \"v\""
  {
    var line := " K= \"v\" \n";
    assert LeadingCount(line[1..], IsSpace) == 0;
    assert LeadingCount(line, IsSpace) == 1;
    var rest := line[1..];
    assert rest[..|rest| - 1][..|rest| - 2] == "K= \"v\"";
    assert TrailingCount(rest[..|rest| - 2], IsSpace) == 0;
    assert TrailingCount(rest[..|rest| - 1], IsSpace) == 1;
    assert TrailingCount(rest, IsSpace) == 2;
  }

  lemma StripExampleValue()
    ensures StripQuotes(" \"v\"") == " \"v"
  {
    var raw := " \"v\"";
    assert LeadingCount(raw, IsQuote) == 0;
    assert raw[..|raw| - 1] == " \"v";
    assert TrailingCount(raw[..|raw| - 1], IsQuote) == 0;
    assert TrailingCount(raw, IsQuote) == 1;
  }

  /** Surrounding spaces are stripped from the line, not from the value; quotes are. */
  lemma QuotesNotSpacesStripped()
    ensures ClassifyLine(" K= \"v\" \n") == Assign("K", " \"v")
  {
    StripExampleLine();
    StripExampleValue();
    var t := "K= \"v\"";
    assert IndexOf(t, '=') == Some(1);
    assert t[2..] == " \"v\"";
  }

  /** A key has a last value exactly when some assignment sets it. */
  lemma {:induction false} LastValueSomeIff(assignments: seq<(string, string)>, key: string)
    ensures LastValue(assignments, key).Some? <==> exists j :: 0 <= j < |assignments| && assignments[j].0 == key
    decreases |assignments|
  {
    if assignments != [] {
      var init := assignments[..|assignments| - 1];
      LastValueSomeIff(init, key);
      if exists j :: 0 <= j < |assignments| && assignments[j].0 == key {
        var j :| 0 <= j < |assignments| && assignments[j].0 == key;
        if j < |init| { assert init[j].0 == key; }
      }
    }
  }

  /** Every assigning line contributes its assignment. */
  lemma {:induction false} AssignmentsOfHas(es: seq<LineEffect>, i: nat)
    requires i < |es| && es[i].Assign?
    ensures (es[i].key, es[i].value) in AssignmentsOf(es)
    decreases i
  {
    if i > 0 {
      AssignmentsOfHas(es[1..], i - 1);
    }
  }

  /**
   * A webhook assigned before the first malformed line ends up in the
   * environment although the load aborts, so `LoadConfig` hands back the
   * webhook the environment had before (a falsy one) while the environment
   * itself holds the file's value.
   */
  lemma WebhookLostOnLaterError(lines: seq<string>, i: nat)
    requires FirstMalformed(Effects(lines)) < |lines|
    requires i < FirstMalformed(Effects(lines))
    requires ClassifyLine(lines[i]).Assign? && ClassifyLine(lines[i]).key == WebhookKey
    ensures ParseLines(lines).aborted
    ensures forall env :: WebhookKey in ApplyAll(env, ParseLines(lines).assignments)
  {
    var es := Effects(lines);
    var n := FirstMalformed(es);
    RunMeaning(es);
    AssignmentsOfHas(es[..n], i);
    LastValueSomeIff(ParseLines(lines).assignments, WebhookKey);
    forall env: map<string, string> ensures WebhookKey in ApplyAll(env, ParseLines(lines).assignments) {
      ApplyAllLookup(env, ParseLines(lines).assignments, WebhookKey);
    }
  }
}
