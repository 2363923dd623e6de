/** The FastAPI handlers of app/api/code_generator.py that hold logic of their own:
    the blank-description guard of generate_code, the markdown-fence stripping
    applied to every model reply that carries code, and run_tests, which runs a
    snippet and its tests in a Docker container and always removes the container. */
module CodeGenerator {
  import opened PyStrings
  import opened Optional

  /** What a call into an outside service did: returned a value, or raised an
      exception whose str() is `message`. */
  datatype Outcome<T> = Returns(value: T) | Raises(message: string)

  // ---------------------------------------------------------------------------
  // Markdown fences
  // ---------------------------------------------------------------------------

  const Fence := "```"

  /** code.startswith("```") and code.endswith("```"); the two may overlap, so "```" alone counts. */
  predicate IsFenced(code: string): (r: bool)
    ensures r ==> |code| >= |Fence| && code[0] == '`' && code[|code| - 1] == '`'
    ensures code == Fence ==> r
  {
    StartsWith(code, Fence) && EndsWith(code, Fence)
  }

  /** The fence stripping of generate_code, improve_code and
      regenerate_code_based_on_tests: a reply that starts and ends with ```
      loses its first and its last line (Python's lines[1:-1]); any other reply
      is kept as it is. */
  function StripFence(code: string): (r: string)
    ensures !IsFenced(code) ==> r == code
    ensures |r| <= |code|
  {
    if IsFenced(code) then
      var r := Join(Inner(Split(code)));
      InnerIsShorter(code);
      r
    else code
  }

  lemma InnerIsShorter(code: string)
    ensures |Join(Inner(Split(code)))| <= |code|
  {
    var lines := Split(code);
    JoinSplit(code);
    if |lines| > 2 {
      JoinSnoc(lines[1..]);
      assert lines[1..][..|lines| - 2] == Inner(lines);
    }
  }

  /** Splitting `middle + "\n" + last` puts `last` on a line of its own. */
  lemma {:induction false} SplitBeforeLine(middle: string, last: string)
    requires '\n' !in last
    ensures Split(middle + "\n" + last) == Split(middle) + [last]
  {
    if middle == [] {
      assert middle + "\n" + last == "\n" + last;
      assert ("\n" + last)[1..] == last;
      SplitNoNewline(last);
    } else {
      var s := middle + "\n" + last;
      assert s[1..] == middle[1..] + "\n" + last;
      SplitBeforeLine(middle[1..], last);
    }
  }

  /** A fenced reply whose first line is `first` and last line is `last` comes
      out as exactly what stands between them. */
  lemma {:induction false} FencedKeepsMiddle(first: string, middle: string, last: string)
    requires '\n' !in first && '\n' !in last
    requires IsFenced(first + "\n" + middle + "\n" + last)
    ensures StripFence(first + "\n" + middle + "\n" + last) == middle
  {
    var code := first + "\n" + middle + "\n" + last;
    assert code == first + "\n" + (middle + "\n" + last);
    SplitAfterLine(first, middle + "\n" + last);
    SplitBeforeLine(middle, last);
    var lines := [first] + Split(middle) + [last];
    assert Split(code) == lines;
    assert Inner(lines) == Split(middle);
    JoinSplit(middle);
  }

  /** A fenced reply of one or two lines comes out empty: "```python```" gives "". */
  lemma {:induction false} ShortFencedReplyIsEmpty(code: string)
    requires IsFenced(code)
    requires '\n' !in code || exists k :: 0 <= k < |code| && code[k] == '\n' && '\n' !in code[k + 1..] && '\n' !in code[..k]
    ensures StripFence(code) == ""
  {
    if '\n' in code {
      var k :| 0 <= k < |code| && code[k] == '\n' && '\n' !in code[k + 1..] && '\n' !in code[..k];
      assert code == code[..k] + "\n" + code[k + 1..];
      SplitAfterLine(code[..k], code[k + 1..]);
      SplitNoNewline(code[k + 1..]);
    } else {
      SplitNoNewline(code);
    }
  }

  /** generate_code's treatment of the model's reply: strip whitespace, then fences. */
  function ExtractCode(reply: string): (code: string)
    ensures !IsFenced(Strip(reply)) ==> code == Strip(reply)
    ensures |code| <= |reply|
  {
    StripFence(Strip(reply))
  }

  // ---------------------------------------------------------------------------
  // generate_code
  // ---------------------------------------------------------------------------

  const BlankDescriptionMessage := "Please provide the code snippet description!"

  datatype CodeResponse = Code(code: string) | HttpError(status: int, detail: string)

  /** generate_code, with the chat-completion call abstracted: `reply` is what
      that call gives if it is made. A description that is only whitespace is
      answered with a fixed message whatever the model would have said. */
  function GenerateCode(description: string, reply: Outcome<string>): (r: CodeResponse)
    ensures AllSpace(description) ==> r == Code(BlankDescriptionMessage)
    ensures r.HttpError? <==> !AllSpace(description) && reply.Raises?
    ensures r.HttpError? ==> r.status == 500 && r.detail == reply.message
    ensures !AllSpace(description) && reply.Returns? ==> r == Code(ExtractCode(reply.value))
  {
    if Strip(description) == [] then Code(BlankDescriptionMessage)
    else
      match reply
      case Raises(m) => HttpError(500, m)
      case Returns(text) => Code(ExtractCode(text))
  }

  // ---------------------------------------------------------------------------
  // run_tests
  // ---------------------------------------------------------------------------

  /** CodeTestsRunRequest */
  datatype RunRequest = RunRequest(code: string, testCases: string, language: string)

  /** The JSON body run_tests returns. */
  datatype TestRunResponse = TestRunResponse(testResult: string, error: bool)

  const UnsupportedLanguageMessage := "Run test functionality is only available for Python code snippets."
  const AllPassedMessage := "All tests passed successfully."
  const RemovalErrorPrefix := "Error removing container: "
  const Image := "python:3.11-slim"
  const Command := ["python", "-c", "import os; exec(os.getenv('CODE'))"]

  /** The program handed to the container: the code, a line break, the tests. */
  function Assemble(code: string, testCases: string): (program: string)
    ensures |program| == |code| + 1 + |testCases|
    ensures program[..|code|] == code && program[|code|] == '\n'
    ensures program[|code| + 1..] == testCases
  {
    code + "\n" + testCases
  }

  /** The bytes container.logs() returns, described by what decoding them as
      UTF-8 gives: the text, or the UnicodeDecodeError's message. */
  datatype Logs = Logs(utf8: Outcome<string>)

  /** How the Docker daemon answers each call run_tests can make. */
  datatype Behaviour = Behaviour(
    run: Outcome<()>,     // containers.run: hands back a new container, or raises
    wait: Outcome<int>,   // container.wait()["StatusCode"]
    logs: Outcome<Logs>,  // container.logs()
    remove: Outcome<()>)  // container.remove()

  datatype Container = Container(id: nat)

  datatype Call =
    | RunCall(image: string, command: seq<string>, environment: map<string, string>)
    | WaitCall(container: Container)
    | LogsCall(container: Container)
    | RemoveCall(container: Container)

  /** The Docker client, with the daemon's answers given by `behaviour`. `live`
      holds the containers created and not yet removed; `calls` every call made. */
  class DockerClient {
    const behaviour: Behaviour
    var nextId: nat
    ghost var live: set<Container>
    ghost var calls: seq<Call>

    ghost predicate Valid()
      reads this
    {
      forall c :: c in live ==> c.id < nextId
    }

    constructor (behaviour: Behaviour)
      ensures Valid() && this.behaviour == behaviour
      ensures live == {} && calls == []
    {
      this.behaviour := behaviour;
      nextId := 0;
      live := {};
      calls := [];
    }

    /** containers.run(image, command=..., environment=..., detach=True, remove=False) */
    method Run(image: string, command: seq<string>, environment: map<string, string>)
      returns (r: Outcome<Container>)
      requires Valid()
      modifies this
      ensures Valid()
      ensures calls == old(calls) + [RunCall(image, command, environment)]
      ensures behaviour.run.Raises? ==> r == Raises(behaviour.run.message) && live == old(live)
      ensures behaviour.run.Returns? ==>
        r == Returns(Container(old(nextId))) && r.value !in old(live) && live == old(live) + {r.value}
    {
      calls := calls + [RunCall(image, command, environment)];
      match behaviour.run
      case Raises(m) =>
        r := Raises(m);
      case Returns(_) =>
        r := Returns(Container(nextId));
        live := live + {Container(nextId)};
        nextId := nextId + 1;
    }

    /** container.wait()["StatusCode"] */
    method Wait(c: Container) returns (r: Outcome<int>)
      modifies this`calls
      ensures calls == old(calls) + [WaitCall(c)]
      ensures r == behaviour.wait
    {
      calls := calls + [WaitCall(c)];
      r := behaviour.wait;
    }

    /** container.logs() */
    method GetLogs(c: Container) returns (r: Outcome<Logs>)
      modifies this`calls
      ensures calls == old(calls) + [LogsCall(c)]
      ensures r == behaviour.logs
    {
      calls := calls + [LogsCall(c)];
      r := behaviour.logs;
    }

    /** container.remove(): the container is gone unless the call raised. */
    method Remove(c: Container) returns (r: Outcome<()>)
      modifies this`calls, this`live
      ensures calls == old(calls) + [RemoveCall(c)]
      ensures r == behaviour.remove
      ensures live == if r.Returns? then old(live) - {c} else old(live)
    {
      calls := calls + [RemoveCall(c)];
      r := behaviour.remove;
      if r.Returns? {
        live := live - {c};
      }
    }
  }

  /** The response run_tests gives for `request` when the daemon behaves as `b`:
      the language gate, then any exception of run, wait, logs or the decode
      becomes the result text, then status 1 is a failure and every other
      status a pass. */
  function ExpectedResponse(request: RunRequest, b: Behaviour): (r: TestRunResponse)
    ensures request.language != "python" ==> r == TestRunResponse(UnsupportedLanguageMessage, true)
    ensures !r.error <==>
      request.language == "python" && b.run.Returns? && b.wait.Returns? && b.logs.Returns? && b.wait.value != 1
    ensures !r.error ==> r.testResult == AllPassedMessage
    ensures request.language == "python" && b.run.Raises? ==> r == TestRunResponse(b.run.message, true)
    ensures request.language == "python" && b.run.Returns? && b.wait.Raises? ==>
      r == TestRunResponse(b.wait.message, true)
    ensures request.language == "python" && b.run.Returns? && b.wait.Returns? && b.logs.Raises? ==>
      r == TestRunResponse(b.logs.message, true)
    ensures request.language == "python" && b.run.Returns? && b.wait == Returns(1) && b.logs.Returns? ==>
      r.error && r.testResult == match b.logs.value.utf8 case Returns(text) => text case Raises(m) => m
  {
    if request.language != "python" then TestRunResponse(UnsupportedLanguageMessage, true)
    else if b.run.Raises? then TestRunResponse(b.run.message, true)
    else if b.wait.Raises? then TestRunResponse(b.wait.message, true)
    else if b.logs.Raises? then TestRunResponse(b.logs.message, true)
    else if b.wait.value == 1 then
      match b.logs.value.utf8
      case Returns(text) => TestRunResponse(text, true)
      case Raises(m) => TestRunResponse(m, true)
    else TestRunResponse(AllPassedMessage, false)
  }

  /** The number of removals among `calls`. */
  function Removals(calls: seq<Call>): nat {
    if calls == [] then 0
    else (if calls[0].RemoveCall? then 1 else 0) + Removals(calls[1..])
  }

  lemma {:induction false} RemovalsAppend(a: seq<Call>, b: seq<Call>)
    ensures Removals(a + b) == Removals(a) + Removals(b)
  {
    if a != [] {
      assert (a + b)[1..] == a[1..] + b;
      RemovalsAppend(a[1..], b);
    } else {
      assert a + b == b;
    }
  }

  /** Whether run_tests ends with a container of its own: the gate let the
      request through and containers.run did not raise. */
  predicate CreatesContainer(request: RunRequest, b: Behaviour) {
    request.language == "python" && b.run.Returns?
  }

  /** The calls run_tests makes on the daemon, `id` being the id the next
      created container gets. The container is removed once, last, when it was
      created, and never otherwise. */
  function ExpectedCalls(request: RunRequest, b: Behaviour, id: nat): (calls: seq<Call>)
    ensures request.language != "python" ==> calls == []
    ensures request.language == "python" ==>
      |calls| >= 1 && calls[0] == RunCall(Image, Command, map["CODE" := Assemble(request.code, request.testCases)])
    ensures Removals(calls) == if CreatesContainer(request, b) then 1 else 0
    ensures CreatesContainer(request, b) ==> calls[|calls| - 1] == RemoveCall(Container(id))
  {
    var c := Container(id);
    var run := [RunCall(Image, Command, map["CODE" := Assemble(request.code, request.testCases)])];
    if request.language != "python" then []
    else if b.run.Raises? then run
    else
      var observe := if b.wait.Raises? then [WaitCall(c)] else [WaitCall(c), LogsCall(c)];
      RemovalsAppend(run, observe);
      RemovalsAppend(run + observe, [RemoveCall(c)]);
      assert Removals(run) == 0 by { assert run[1..] == []; }
      assert Removals([RemoveCall(c)]) == 1 by { assert [RemoveCall(c)][1..] == []; }
      assert Removals(observe) == 0 by {
        assert observe[1..] == [] || (observe[1..] == [LogsCall(c)] && observe[1..][1..] == []);
      }
      run + observe + [RemoveCall(c)]
  }

  /** What run_tests prints: one line when the removal of its container raised. */
  function ExpectedLog(request: RunRequest, b: Behaviour): (lines: seq<string>)
    ensures |lines| <= 1
    ensures lines != [] <==> CreatesContainer(request, b) && b.remove.Raises?
  {
    if CreatesContainer(request, b) && b.remove.Raises? then [RemovalErrorPrefix + b.remove.message] else []
  }

  /** run_tests. The language gate comes before anything touches the daemon;
      the `finally` clause removes the container if one was created, and a
      removal that raises is only printed. */
  method RunTests(request: RunRequest, docker: DockerClient) returns (response: TestRunResponse, printed: seq<string>)
    requires docker.Valid()
    modifies docker
    ensures docker.Valid()
    ensures response == ExpectedResponse(request, docker.behaviour)
    ensures printed == ExpectedLog(request, docker.behaviour)
    ensures docker.calls == old(docker.calls) + ExpectedCalls(request, docker.behaviour, old(docker.nextId))
    ensures docker.live ==
      if CreatesContainer(request, docker.behaviour) && docker.behaviour.remove.Raises?
      then old(docker.live) + {Container(old(docker.nextId))}
      else old(docker.live)
  {
    printed := [];
    if request.language != "python" {
      response := TestRunResponse(UnsupportedLanguageMessage, true);
      return;
    }

    var fullCode := Assemble(request.code, request.testCases);
    var container: Option<Container> := None;
    // try
    var run := docker.Run(Image, Command, map["CODE" := fullCode]);
    if run.Raises? {
      response := TestRunResponse(run.message, true);
    } else {
      container := Some(run.value);
      var result := docker.Wait(container.value);
      if result.Raises? {
        response := TestRunResponse(result.message, true);
      } else {
        var output := docker.GetLogs(container.value);
        if output.Raises? {
          response := TestRunResponse(output.message, true);
        } else if result.value == 1 {
          match output.value.utf8
          case Returns(text) =>
            response := TestRunResponse(text, true);
          case Raises(m) =>
            response := TestRunResponse(m, true);
        } else {
          response := TestRunResponse(AllPassedMessage, false);
        }
      }
    }
    // finally
    if container.Some? {
      var removed := docker.Remove(container.value);
      if removed.Raises? {
        printed := [RemovalErrorPrefix + removed.message];
      }
    }
  }

  /** A failing removal is only printed: the response is the same whatever
      container.remove() does. */
  lemma RemovalNeverChangesResponse(request: RunRequest, b: Behaviour, removal: Outcome<()>)
    ensures ExpectedResponse(request, b.(remove := removal)) == ExpectedResponse(request, b)
  {
  }
}
