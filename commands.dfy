/** The command demo: keys decoded from the line are collected in a buffer;
    a buffer of the form `*<code>#` runs the command registered under
    `<code>` and is then reset.

    The network handlers (joke and activity) are not modelled; what they
    read from their JSON responses is passed in as `Replies`, with `None`
    standing for a response that lacks the field (a `KeyError` in Python). */
module Commands {
  import opened Wrappers

  /** The handlers registered in the command map. */
  datatype Command = Hello | ProgrammingJoke | RandomActivity

  /** The `joke` and `activity` fields of the two API responses, if present. */
  datatype Replies = Replies(joke: Option<string>, activity: Option<string>)

  /** The record `process_command` returns: the executed code and its output. */
  datatype CommandResult = CommandResult(command: string, output: string)

  const Prefix: char := '*'
  const Suffix: char := '#'

  const CommandMap: map<string, Command> :=
    map["1234" := Hello, "1111" := ProgrammingJoke, "2222" := RandomActivity]

  const HelloOutput: string := "Hello, world!"
  const BadCommandTag: string := "[BAD COMMAND CODE]"

  /** The message for a code with no handler (console colours dropped). */
  function BadCommand(code: string): string
  {
    BadCommandTag + " : The command you entered does not exist (\"" + code + "\")."
  }

  /** Runs one handler. `None` is the `KeyError` the handler raises when the
      response lacks its field; `hello` never fails. */
  function Handle(c: Command, replies: Replies): Option<string>
  {
    match c
    case Hello => Some(HelloOutput)
    case ProgrammingJoke =>
      if replies.joke.Some? then Some("Joke: " + replies.joke.value) else None
    case RandomActivity =>
      if replies.activity.Some? then Some("Activity: " + replies.activity.value) else None
  }

  /** Looks the code up and runs its handler; every `KeyError`, from the
      lookup or from inside the handler, becomes the bad-command message. */
  function Execute(code: string, replies: Replies): (r: CommandResult)
    ensures r.command == code
    ensures code == "1234" ==> r.output == HelloOutput
    ensures code !in CommandMap ==> r.output == BadCommand(code)
  {
    var handled := if code in CommandMap then Handle(CommandMap[code], replies) else None;
    CommandResult(code, if handled.Some? then handled.value else BadCommand(code))
  }

  /** The output is the bad-command message naming the code exactly when the
      code is not in the map or its handler found no field to read. */
  lemma BadCommandExactly(code: string, replies: Replies)
    ensures Execute(code, replies).output == BadCommand(code)
        <==> (code !in CommandMap || Handle(CommandMap[code], replies).None?)
  {
    var out := Execute(code, replies).output;
    if code in CommandMap && Handle(CommandMap[code], replies).Some? {
      assert out[0] != BadCommand(code)[0];
    }
  }

  predicate StartsWith(s: string, c: char)
  {
    0 < |s| && s[0] == c
  }

  predicate EndsWith(s: string, c: char)
  {
    0 < |s| && s[|s| - 1] == c
  }

  /** The buffer states between keys: empty, or an opened command still
      waiting for its terminator. */
  predicate Pending(buffer: string)
  {
    buffer == "" || (StartsWith(buffer, Prefix) && !EndsWith(buffer, Suffix))
  }

  /** `process_command`: the buffer afterwards and the result, if a command
      ran. A buffer not opened by `*` is first cleared; a buffer that then
      ends in `#` runs its inner code and is reset. */
  function Process(buffer: string, replies: Replies): (r: (string, Option<CommandResult>))
    ensures !StartsWith(buffer, Prefix) ==> r == ("", None)
    ensures StartsWith(buffer, Prefix) && EndsWith(buffer, Suffix) ==>
              2 <= |buffer| && r == ("", Some(Execute(buffer[1..|buffer| - 1], replies)))
    ensures StartsWith(buffer, Prefix) && !EndsWith(buffer, Suffix) ==> r == (buffer, None)
    ensures Pending(r.0)
  {
    var kept := if StartsWith(buffer, Prefix) then buffer else "";
    if EndsWith(kept, Suffix) then
      ("", Some(Execute(kept[1..|kept| - 1], replies)))
    else
      (kept, None)
  }

  /** A pending buffer is left alone by `process_command`. */
  lemma PendingIsIdle(buffer: string, replies: Replies)
    requires Pending(buffer)
    ensures Process(buffer, replies) == (buffer, None)
  {
  }

  /** On an empty buffer, any key other than `*` is discarded. */
  lemma StrayKeyDiscarded(c: char, replies: Replies)
    requires c != Prefix
    ensures Process("" + [c], replies) == ("", None)
  {
  }

  /** Feeding keys one at a time, as the decoder loop calls `key` on each
      decoded key: the final buffer and every result, in order. Each key comes
      with the replies its own call would fetch, since every joke or activity
      command makes a fresh request. */
  function Feed(buffer: string, keys: string, replies: seq<Replies>): (r: (string, seq<CommandResult>))
    requires |replies| == |keys|
    ensures keys != [] ==> Pending(r.0)
    ensures |r.1| <= |keys|
    decreases |keys|
  {
    if keys == [] then (buffer, [])
    else
      var step := Process(buffer + [keys[0]], replies[0]);
      var rest := Feed(step.0, keys[1..], replies[1..]);
      (rest.0, (if step.1.Some? then [step.1.value] else []) + rest.1)
  }

  /** One key, then the rest: `Feed` unfolded once. */
  lemma FeedCons(buffer: string, c: char, keys: string, reply: Replies, replies: seq<Replies>)
    requires |replies| == |keys|
    ensures var step := Process(buffer + [c], reply);
            Feed(buffer, [c] + keys, [reply] + replies)
            == (Feed(step.0, keys, replies).0,
                (if step.1.Some? then [step.1.value] else []) + Feed(step.0, keys, replies).1)
  {
    assert ([c] + keys)[0] == c;
    assert ([c] + keys)[1..] == keys;
    assert ([reply] + replies)[0] == reply;
    assert ([reply] + replies)[1..] == replies;
  }

  /** Keys without a terminator only extend an opened command. */
  lemma {:induction false} FeedOpened(buffer: string, keys: string, replies: seq<Replies>)
    requires |replies| == |keys|
    requires StartsWith(buffer, Prefix)
    requires Suffix !in keys
    ensures Feed(buffer, keys, replies) == (buffer + keys, [])
    decreases |keys|
  {
    if keys != [] {
      var b := buffer + [keys[0]];
      assert keys[0] != Suffix by { assert keys[0] in keys; }
      assert Process(b, replies[0]) == (b, None);
      assert Suffix !in keys[1..] by {
        forall i | 0 <= i < |keys[1..]| ensures keys[1..][i] != Suffix {
          assert keys[1..][i] == keys[i + 1];
        }
      }
      assert StartsWith(b, Prefix) by { assert b[0] == buffer[0]; }
      FeedOpened(b, keys[1..], replies[1..]);
      assert b + keys[1..] == buffer + keys;
      assert Feed(buffer, keys, replies).0 == Feed(b, keys[1..], replies[1..]).0;
      assert Feed(buffer, keys, replies).1 == [];
    } else {
      assert buffer + keys == buffer;
    }
  }

  /** Typing `*`, a code without `#`, then `#` on an empty buffer runs exactly
      that code once, with the replies fetched on the `#` key, and leaves the
      buffer empty. */
  lemma TypedCommand(code: string, replies: seq<Replies>)
    requires Suffix !in code
    requires |replies| == |code| + 2
    ensures Feed("", [Prefix] + code + [Suffix], replies)
         == ("", [Execute(code, replies[|replies| - 1])])
  {
    FeedTyped(code, [Prefix] + code + [Suffix], replies);
  }

  /** `TypedCommand` for a key run named by a variable. */
  lemma FeedTyped(code: string, keys: string, replies: seq<Replies>)
    requires Suffix !in code
    requires keys == [Prefix] + code + [Suffix]
    requires |replies| == |keys|
    ensures Feed("", keys, replies) == ("", [Execute(code, replies[|replies| - 1])])
  {
    var tail := code + [Suffix];
    var first := replies[0];
    var middle := replies[1..|replies| - 1];
    var last := replies[|replies| - 1];
    assert keys == [Prefix] + tail;
    var rest := replies[1..];
    assert rest == middle + [last];
    assert replies == [first] + rest;
    FeedFirstKey(tail, first, middle + [last]);
    FeedAfterPrefix(code, middle, last);
  }

  /** After the opening `*`, a code without `#` and then `#` run that code. */
  lemma FeedAfterPrefix(code: string, middle: seq<Replies>, last: Replies)
    requires Suffix !in code
    requires |middle| == |code|
    ensures Feed([Prefix], code + [Suffix], middle + [last]) == ("", [Execute(code, last)])
  {
    var started := [Prefix] + code;
    FeedOpened([Prefix], code, middle);
    FeedSplit([Prefix], code, [Suffix], middle, [last]);
    assert started[1..] == code;
    FeedTerminator(started, last);
    assert [] + [Execute(code, last)] == [Execute(code, last)];
  }

  /** A leading `*` on an empty buffer only opens a command. */
  lemma FeedFirstKey(keys: string, reply: Replies, replies: seq<Replies>)
    requires |replies| == |keys|
    ensures Feed("", [Prefix] + keys, [reply] + replies) == Feed([Prefix], keys, replies)
  {
    assert "" + [Prefix] == [Prefix];
    assert Process([Prefix], reply) == ([Prefix], None);
    FeedCons("", Prefix, keys, reply, replies);
    var rest := Feed([Prefix], keys, replies);
    assert [] + rest.1 == rest.1;
    assert (rest.0, rest.1) == rest;
  }

  /** `#` on an opened command runs the code between the delimiters. */
  lemma FeedTerminator(started: string, reply: Replies)
    requires StartsWith(started, Prefix)
    ensures Feed(started, [Suffix], [reply]) == ("", [Execute(started[1..], reply)])
  {
    var b := started + [Suffix];
    assert b[1..|b| - 1] == started[1..];
    assert Process(b, reply) == ("", Some(Execute(started[1..], reply)));
    FeedCons(started, Suffix, [], reply, []);
    assert [Suffix] + [] == [Suffix];
    assert [reply] + [] == [reply];
    assert Feed("", [], []) == ("", []);
    assert [Execute(started[1..], reply)] + [] == [Execute(started[1..], reply)];
  }

  /** Feeding two runs of keys is feeding their concatenation. */
  lemma {:induction false} FeedSplit(buffer: string, xs: string, ys: string,
                                     rx: seq<Replies>, ry: seq<Replies>)
    requires |rx| == |xs| && |ry| == |ys|
    ensures Feed(buffer, xs + ys, rx + ry).0 == Feed(Feed(buffer, xs, rx).0, ys, ry).0
    ensures Feed(buffer, xs + ys, rx + ry).1
         == Feed(buffer, xs, rx).1 + Feed(Feed(buffer, xs, rx).0, ys, ry).1
    decreases |xs|
  {
    if xs == [] {
      assert xs + ys == ys;
      assert rx + ry == ry;
    } else {
      assert (xs + ys)[0] == xs[0];
      assert (xs + ys)[1..] == xs[1..] + ys;
      assert (rx + ry)[0] == rx[0];
      assert (rx + ry)[1..] == rx[1..] + ry;
      var next := Process(buffer + [xs[0]], rx[0]).0;
      FeedSplit(next, xs[1..], ys, rx[1..], ry);
    }
  }

  /** Two typed commands in a row each run once, each with the replies fetched
      on its own `#` key: the same joke code typed twice can show two jokes. */
  lemma TwoCommands(code1: string, code2: string, k1: string, k2: string,
                     r1: seq<Replies>, r2: seq<Replies>)
    requires Suffix !in code1 && Suffix !in code2
    requires k1 == [Prefix] + code1 + [Suffix] && k2 == [Prefix] + code2 + [Suffix]
    requires |r1| == |k1| && |r2| == |k2|
    ensures Feed("", k1 + k2, r1 + r2)
         == ("", [Execute(code1, r1[|r1| - 1]), Execute(code2, r2[|r2| - 1])])
  {
    var o1 := Execute(code1, r1[|r1| - 1]);
    var o2 := Execute(code2, r2[|r2| - 1]);
    TypedCommand(code1, r1);
    TypedCommand(code2, r2);
    FeedIdleRuns(k1, k2, r1, r2);
    assert [o1] + [o2] == [o1, o2];
  }

  /** Two runs of keys that each leave the empty buffer empty can be fed in
      sequence: their results are concatenated. */
  lemma FeedIdleRuns(xs: string, ys: string, rx: seq<Replies>, ry: seq<Replies>)
    requires |rx| == |xs| && |ry| == |ys|
    requires Feed("", xs, rx).0 == "" && Feed("", ys, ry).0 == ""
    ensures Feed("", xs + ys, rx + ry) == ("", Feed("", xs, rx).1 + Feed("", ys, ry).1)
  {
    FeedSplit("", xs, ys, rx, ry);
  }

  /** Typing `*#` runs the empty code, which has no handler. */
  lemma EmptyCodeIsBad(replies: seq<Replies>)
    requires |replies| == 2
    ensures Feed("", "*#", replies) == ("", [CommandResult("", BadCommand(""))])
  {
    assert "*#" == [Prefix] + "" + [Suffix];
    TypedCommand("", replies);
  }

  /** The decoder object: the key buffer that `key` appends to. */
  class CommandDecoder {
    var command: string

    constructor()
      ensures command == ""
    {
      command := "";
    }

    /** `process_command` with the default `*` and `#` delimiters. */
    method ProcessCommand(replies: Replies) returns (result: Option<CommandResult>)
      modifies this
      ensures (command, result) == Process(old(command), replies)
    {
      if !StartsWith(command, Prefix) {
        command := "";
      }
      if EndsWith(command, Suffix) {
        command := command[1..|command| - 1];
        var r := Execute(command, replies);
        command := "";
        return Some(r);
      }
      return None;
    }

    /** `key`: appends the pressed key and processes the buffer. */
    method Key(pressedKey: string, replies: Replies) returns (result: Option<CommandResult>)
      modifies this
      ensures (command, result) == Process(old(command) + pressedKey, replies)
      ensures Pending(command)
    {
      command := command + pressedKey;
      result := ProcessCommand(replies);
    }
  }
}
