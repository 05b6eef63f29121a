/**
 The allowlist of docker commands (shared/schemas/command_validator.py): longest registered prefix,
 then flag/value pairs, then positional arguments. The two methods are the source's index loops;
 `Derives` is the grammar they are proved to decide, for any table of schemas.
 */
module CommandValidator {
  import opened Wrappers

  datatype Schema = Schema(flags: map<string, string -> bool>, positional: seq<string -> bool>)

  type Table = map<seq<string>, Schema>

  datatype Rejection =
    | EmptyCommand
    | NotAllowed
    | FlagAfterPositional
    | UnknownFlag
    | FlagWithoutValue
    | InvalidValue
    | WrongPositionalCount

  // ---------- Declarative grammar ----------

  datatype Pair = Pair(flag: string, value: string)

  predicate IsFlag(part: string) {
    part != "" && part[0] == '-'
  }

  function Flatten(pairs: seq<Pair>): seq<string> {
    if pairs == [] then [] else [pairs[0].flag, pairs[0].value] + Flatten(pairs[1..])
  }

  predicate PairAllowed(schema: Schema, p: Pair) {
    IsFlag(p.flag) && p.flag in schema.flags && schema.flags[p.flag](p.value)
  }

  predicate PositionalAllowed(schema: Schema, args: seq<string>) {
    && |args| == |schema.positional|
    && forall i :: 0 <= i < |args| ==> !IsFlag(args[i]) && schema.positional[i](args[i])
  }

  /** `rest` is exactly these allowed pairs followed by exactly these allowed positional arguments. */
  ghost predicate Sentence(schema: Schema, rest: seq<string>, pairs: seq<Pair>, args: seq<string>) {
    && rest == Flatten(pairs) + args
    && (forall i :: 0 <= i < |pairs| ==> PairAllowed(schema, pairs[i]))
    && PositionalAllowed(schema, args)
  }

  ghost predicate Derives(schema: Schema, rest: seq<string>) {
    exists pairs, args :: Sentence(schema, rest, pairs, args)
  }

  ghost predicate LongestPrefix(table: Table, cmd: seq<string>, size: nat) {
    && 0 < size <= |cmd|
    && cmd[..size] in table
    && forall longer :: size < longer <= |cmd| ==> cmd[..longer] !in table
  }

  ghost predicate Accepted(table: Table, cmd: seq<string>) {
    exists size: nat :: LongestPrefix(table, cmd, size) && Derives(table[cmd[..size]], cmd[size..])
  }

  // ---------- Left-to-right reading ----------

  /** The arguments read from left to right, without a search for a derivation. */
  predicate Parses(schema: Schema, rest: seq<string>) {
    if rest != [] && IsFlag(rest[0]) then
      |rest| >= 2 && PairAllowed(schema, Pair(rest[0], rest[1])) && Parses(schema, rest[2..])
    else
      PositionalAllowed(schema, rest)
  }

  lemma {:induction false} ParsesSound(schema: Schema, rest: seq<string>)
    requires Parses(schema, rest)
    ensures Derives(schema, rest)
  {
    if rest != [] && IsFlag(rest[0]) {
      ParsesSound(schema, rest[2..]);
      var pairs, args :| Sentence(schema, rest[2..], pairs, args);
      var more := [Pair(rest[0], rest[1])] + pairs;
      assert more[1..] == pairs;
      assert rest == [rest[0], rest[1]] + rest[2..];
      assert Sentence(schema, rest, more, args);
    } else {
      assert Flatten([]) + rest == rest;
      assert Sentence(schema, rest, [], rest);
    }
  }

  lemma SentenceHead(schema: Schema, rest: seq<string>, pairs: seq<Pair>, args: seq<string>)
    requires Sentence(schema, rest, pairs, args)
    ensures pairs == [] <==> (rest == [] || !IsFlag(rest[0]))
    ensures pairs == [] ==> rest == args
    ensures pairs != [] ==> |rest| >= 2 && pairs[0] == Pair(rest[0], rest[1])
    ensures pairs != [] ==> Sentence(schema, rest[2..], pairs[1..], args)
  {
  }

  lemma {:induction false} ParsesComplete(schema: Schema, rest: seq<string>, pairs: seq<Pair>, args: seq<string>)
    requires Sentence(schema, rest, pairs, args)
    ensures Parses(schema, rest)
    decreases |pairs|
  {
    SentenceHead(schema, rest, pairs, args);
    if pairs != [] {
      ParsesComplete(schema, rest[2..], pairs[1..], args);
    }
  }

  lemma ParsesIffDerives(schema: Schema, rest: seq<string>)
    ensures Parses(schema, rest) <==> Derives(schema, rest)
  {
    if Parses(schema, rest) {
      ParsesSound(schema, rest);
    }
    if Derives(schema, rest) {
      var pairs, args :| Sentence(schema, rest, pairs, args);
      ParsesComplete(schema, rest, pairs, args);
    }
  }

  /** A command has one reading only: the grammar is unambiguous. */
  lemma {:induction false} SentenceUnique(
    schema: Schema, rest: seq<string>, pairs: seq<Pair>, args: seq<string>, pairs': seq<Pair>, args': seq<string>)
    requires Sentence(schema, rest, pairs, args) && Sentence(schema, rest, pairs', args')
    ensures pairs == pairs' && args == args'
    decreases |pairs|
  {
    SentenceHead(schema, rest, pairs, args);
    SentenceHead(schema, rest, pairs', args');
    if pairs == [] {
      assert rest == args == args';
    } else {
      SentenceUnique(schema, rest[2..], pairs[1..], args, pairs'[1..], args');
      assert pairs == [pairs[0]] + pairs[1..] && pairs' == [pairs'[0]] + pairs'[1..];
    }
  }

  /** Reading past a block of pairs: the block is allowed as a whole or the command is rejected. */
  lemma {:induction false} ParsesAfterPairs(schema: Schema, pairs: seq<Pair>, rest: seq<string>)
    requires forall i :: 0 <= i < |pairs| ==> IsFlag(pairs[i].flag)
    ensures Parses(schema, Flatten(pairs) + rest) <==>
            (forall i :: 0 <= i < |pairs| ==> PairAllowed(schema, pairs[i])) && Parses(schema, rest)
  {
    if pairs == [] {
      assert Flatten(pairs) + rest == rest;
    } else {
      var all := Flatten(pairs) + rest;
      assert all == [pairs[0].flag, pairs[0].value] + (Flatten(pairs[1..]) + rest);
      assert all[2..] == Flatten(pairs[1..]) + rest;
      assert Pair(all[0], all[1]) == pairs[0];
      ParsesAfterPairs(schema, pairs[1..], rest);
      assert forall i :: 0 < i < |pairs| ==> pairs[i] == pairs[1..][i - 1];
    }
  }

  // ---------- The source's loops ----------

  method ResolveCommandSchema(table: Table, cmd: seq<string>) returns (r: Result<(seq<string>, Schema), Rejection>)
    ensures r.Success? <==> exists size: nat :: LongestPrefix(table, cmd, size)
    ensures r.Success? ==>
              && r.value.0 <= cmd && r.value.0 in table && r.value.1 == table[r.value.0]
              && LongestPrefix(table, cmd, |r.value.0|)
    ensures r.Failure? ==> r.error == (if cmd == [] then EmptyCommand else NotAllowed)
  {
    if cmd == [] {
      return Failure(EmptyCommand);
    }
    var size := |cmd|;
    while size > 0
      invariant 0 <= size <= |cmd|
      invariant forall longer :: size < longer <= |cmd| ==> cmd[..longer] !in table
    {
      var key := cmd[..size];
      if key in table {
        assert LongestPrefix(table, cmd, size);
        return Success((key, table[key]));
      }
      size := size - 1;
    }
    return Failure(NotAllowed);
  }

  lemma AcceptedIffParses(table: Table, cmd: seq<string>, size: nat)
    requires LongestPrefix(table, cmd, size)
    ensures Accepted(table, cmd) <==> Parses(table[cmd[..size]], cmd[size..])
  {
    ParsesIffDerives(table[cmd[..size]], cmd[size..]);
  }

  method Validate(table: Table, cmd: seq<string>) returns (r: Result<seq<string>, Rejection>)
    ensures r.Success? <==> Accepted(table, cmd)
    ensures r.Success? ==> r.value == cmd
  {
    var resolved :- ResolveCommandSchema(table, cmd);
    var (key, schema) := resolved;
    assert cmd[..|key|] == key;
    AcceptedIffParses(table, cmd, |key|);
    var positional: seq<string> := [];
    var i := |key|;
    while i < |cmd|
      invariant |key| <= i <= |cmd|
      invariant positional == [] ==> Accepted(table, cmd) == Parses(schema, cmd[i..])
      invariant positional != [] ==> Accepted(table, cmd) == PositionalAllowed(schema, positional + cmd[i..])
      invariant forall k :: 0 <= k < |positional| ==> !IsFlag(positional[k])
    {
      var part := cmd[i];
      assert cmd[i..][0] == part;
      if IsFlag(part) {
        if positional != [] {
          assert (positional + cmd[i..])[|positional|] == part;
          return Failure(FlagAfterPositional);
        }
        if part !in schema.flags {
          return Failure(UnknownFlag);
        }
        if i + 1 >= |cmd| {
          return Failure(FlagWithoutValue);
        }
        var value := cmd[i + 1];
        assert cmd[i..][1] == value && cmd[i..][2..] == cmd[i + 2..];
        if !schema.flags[part](value) {
          return Failure(InvalidValue);
        }
        i := i + 2;
      } else {
        assert positional + cmd[i..] == (positional + [part]) + cmd[i + 1..];
        assert positional == [] ==> positional + cmd[i..] == cmd[i..];
        positional := positional + [part];
        i := i + 1;
      }
    }
    assert positional + cmd[i..] == positional;
    assert Accepted(table, cmd) == PositionalAllowed(schema, positional);
    if |positional| != |schema.positional| {
      return Failure(WrongPositionalCount);
    }
    for k := 0 to |positional|
      invariant forall j :: 0 <= j < k ==> schema.positional[j](positional[j])
    {
      if !schema.positional[k](positional[k]) {
        return Failure(InvalidValue);
      }
    }
    return Success(cmd);
  }
}
