/** Running one run directory as a Prominence job: the description of the job
    that `ExecuteProminence` writes for a run directory, and the state that
    `ActionStatusProminence` keeps about the submitted job.

    The HTTP exchanges are the parameters of the methods: each method receives
    the response the server gave and the token read for the request header
    (`None` when no token could be read), and returns the request it makes
    or the file it writes. */
module Prominence {
  import opened Wrappers

  /** A `posixpath` path: a run directory, an input or output file. */
  type Path = string

  /** One entry of the job's `inputs`: the base name and the encoded content
      of an input file. */
  datatype InputFile = InputFile(filename: string, content: string)

  /** One entry of the job's `tasks`; `other` stands for its remaining keys. */
  datatype Task = Task(workdir: Option<Path>, other: map<string, string>)

  /** The JSON job description: the keys that the code reads or writes and,
      in `other`, everything else it carries along unchanged. */
  datatype Job = Job(
    name: Option<string>,
    tasks: Option<seq<Task>>,
    inputs: Option<seq<InputFile>>,
    other: map<string, string>)

  /** The server's answer to the submission (`POST <url>/jobs`): the status
      code and the `id` member of the returned JSON, if present. */
  datatype SubmitResponse = SubmitResponse(statusCode: int, id: Option<int>)

  /** The server's answer to the status query (`GET <url>/jobs/<id>`): the
      status code and the `status` member of the first job, if present. */
  datatype StatusResponse = StatusResponse(statusCode: int, status: Option<string>)

  /** The submission the class sends to the server. */
  datatype Submission = Submission(target: string, job: Job)

  /** Python's truth value of an optional string: `None` and `""` are false. */
  predicate Truthy(s: Option<string>) {
    s.Some? && s.value != ""
  }

  /** `os.path.join(a, b)` on POSIX paths with two components. */
  function Join(a: Path, b: Path): (r: Path)
    ensures |b| > 0 && b[0] == '/' ==> r == b
    ensures !(|b| > 0 && b[0] == '/') ==> |a| + |b| <= |r| <= |a| + |b| + 1 && r[..|a|] == a
    ensures !(|b| > 0 && b[0] == '/') && |a| > 0 ==> r[|r| - |b| - 1] == '/'
    ensures !(|b| > 0 && b[0] == '/') && (|a| == 0 || a[|a| - 1] == '/') ==> r == a + b
    ensures |r| >= |b| && r[|r| - |b|..] == b
  {
    if |b| > 0 && b[0] == '/' then b
    else if |a| == 0 || a[|a| - 1] == '/' then a + b
    else a + "/" + b
  }

  /** `os.path.basename(p)`: what follows the last `/`. */
  function Basename(p: Path): (r: string)
    ensures '/' !in r && |r| <= |p|
  {
    if |p| == 0 || p[|p| - 1] == '/' then ""
    else Basename(p[..|p| - 1]) + [p[|p| - 1]]
  }

  /** The base name is the part of the path after its last separator: a
      suffix of the path, preceded by `/` unless it is the whole path. */
  lemma {:induction false} BasenameIsLastPart(p: Path)
    ensures var r := Basename(p);
      r == p[|p| - |r|..] && (|r| < |p| ==> p[|p| - |r| - 1] == '/')
  {
    if |p| > 0 && p[|p| - 1] != '/' {
      var init := p[..|p| - 1];
      BasenameIsLastPart(init);
      var r := Basename(init);
      assert p[|p| - |r| - 1..] == init[|init| - |r|..] + [p[|p| - 1]];
    }
  }

  /** Appending a name without `/` after a directory part that is empty or
      ends in `/` leaves that name as the base name. */
  lemma {:induction false} BasenameAfterSlash(dir: Path, name: string)
    requires |dir| == 0 || dir[|dir| - 1] == '/'
    requires '/' !in name
    ensures Basename(dir + name) == name
  {
    if |name| == 0 {
      assert dir + name == dir;
    } else {
      var p := dir + name;
      var init, last := name[..|name| - 1], name[|name| - 1];
      assert name == init + [last];
      assert '/' !in init && last != '/';
      assert p == (dir + init) + [last];
      BasenameAfterSlash(dir, init);
    }
  }

  /** The base name of a plain file name joined to a directory is that file
      name: the names of the uploaded inputs are the configured ones. */
  lemma BasenameOfJoin(dir: Path, name: string)
    requires '/' !in name
    ensures Basename(Join(dir, name)) == name
  {
    if |dir| == 0 || dir[|dir| - 1] == '/' {
      BasenameAfterSlash(dir, name);
    } else {
      BasenameAfterSlash(dir + "/", name);
      assert Join(dir, name) == (dir + "/") + name;
    }
  }

  /** `ActionStatusProminence`: the client's view of one submitted job.
      `startedFlag`, `succeededFlag` and `id` are `_started`, `_succeeded`
      and `id`. */
  class ActionStatusProminence {
    var url: string
    var body: Job
    var fileNames: seq<Path>
    var outfile: Option<Path>
    var succeededFlag: bool
    var startedFlag: bool
    var id: Option<int>

    /** A job that started, or that succeeded, has an id. */
    ghost predicate Valid()
      reads this
    {
      (startedFlag ==> id.Some?) && (succeededFlag ==> id.Some?)
    }

    /** The job description is copied; nothing is started, nothing has
        succeeded, there is no id. */
    constructor (url: string, body: Job, fileNames: seq<Path>, outfile: Option<Path>)
      ensures this.url == url && this.body == body
      ensures this.fileNames == fileNames && this.outfile == outfile
      ensures !Started() && !Succeeded() && id.None?
      ensures Valid()
    {
      this.url := url;
      this.body := body;
      this.fileNames := fileNames;
      this.outfile := outfile;
      succeededFlag := false;
      startedFlag := false;
      id := None;
    }

    /** `started()`. */
    predicate Started()
      reads this
    {
      startedFlag
    }

    /** `succeeded()`. */
    predicate Succeeded()
      reads this
    {
      succeededFlag
    }

    /** `add_input_files()`: one input entry per file, in the order of the
        file names, named by the base name and holding the encoded content
        (`encoded` stands for reading the file and encoding it in base64). */
    method AddInputFiles(encoded: Path -> string) returns (inputs: seq<InputFile>)
      ensures |inputs| == |fileNames|
      ensures forall i :: 0 <= i < |inputs| ==>
        inputs[i] == InputFile(Basename(fileNames[i]), encoded(fileNames[i]))
    {
      inputs := [];
      var i := 0;
      while i < |fileNames|
        invariant 0 <= i <= |fileNames|
        invariant |inputs| == i
        invariant forall j :: 0 <= j < i ==>
          inputs[j] == InputFile(Basename(fileNames[j]), encoded(fileNames[j]))
      {
        inputs := inputs + [InputFile(Basename(fileNames[i]), encoded(fileNames[i]))];
        i := i + 1;
      }
    }

    /** `start()`. A second start raises before anything changes. Otherwise
        the input files are added to the description when there are any, the
        id becomes 0 and the description is submitted (`sent`); with no
        token the header cannot be built and nothing is sent. Only a 201
        answer starts the job, whose id is then the returned one when the
        answer has one. */
    method Start(encoded: Path -> string, token: Option<string>, response: SubmitResponse)
      returns (err: Option<Error>, sent: Option<Submission>)
      requires Valid()
      modifies this
      ensures Valid()
      ensures url == old(url) && fileNames == old(fileNames) && outfile == old(outfile)
      ensures succeededFlag == old(succeededFlag)
      ensures old(Started()) ==> err == Some(RuntimeError) && sent.None? && unchanged(this)
      ensures !old(Started()) ==>
        && (if |fileNames| > 0 then body.inputs.Some? && |body.inputs.value| == |fileNames|
                                     && body == old(body).(inputs := body.inputs)
            else body == old(body))
        && (token.None? ==> err == Some(RuntimeError) && sent.None? && !Started() && id == Some(0))
        && (token.Some? ==> sent == Some(Submission(url + "/jobs", body)))
        && (token.Some? && response.statusCode == 201 ==>
              err.None? && Started() && id == (if response.id.Some? then response.id else Some(0)))
        && (token.Some? && response.statusCode != 201 ==>
              err == Some(RuntimeError) && !Started() && id == Some(0))
      ensures !old(Started()) && |fileNames| > 0 ==> forall i :: 0 <= i < |fileNames| ==>
        body.inputs.value[i] == InputFile(Basename(fileNames[i]), encoded(fileNames[i]))
    {
      if startedFlag {
        return Some(RuntimeError), None;
      }
      if |fileNames| > 0 {
        var inputs := AddInputFiles(encoded);
        body := body.(inputs := Some(inputs));
      }
      id := Some(0);
      if token.None? {
        return Some(RuntimeError), None;
      }
      sent := Some(Submission(url + "/jobs", body));
      if response.statusCode == 201 {
        startedFlag := true;
        if response.id.Some? {
          id := response.id;
        }
        err := None;
      } else {
        err := Some(RuntimeError);
      }
    }

    /** `finished()`: the status query raises on an id that is not a number,
        on a missing token and on an answer other than 200. */
    method Finished(token: Option<string>, response: StatusResponse) returns (res: Result<bool>)
      requires Valid()
      modifies this
      ensures Valid()
      ensures url == old(url) && body == old(body) && fileNames == old(fileNames)
      ensures outfile == old(outfile) && Started() == old(Started()) && id == old(id)
      ensures res == StatusOf(old(id), token, response)
      ensures Started() ==> res != Err(TypeError)
      ensures succeededFlag == (old(succeededFlag) || (res.Ok? && Completed(response)))
    {
      res := StatusOf(id, token, response);
      if res.Ok? && Completed(response) {
        succeededFlag := true;
      }
    }

    /** `finalise()`: `finished() and succeeded()` must hold, or it raises;
        `succeeded()` is asked only when `finished()` is true. Then, when an
        output file is set, the job's standard output (`stdout`) is written
        to it. That second request builds its header again, so it reads the
        token again: `outputToken` is the token at that moment. */
    method Finalise(token: Option<string>, response: StatusResponse, outputToken: Option<string>, stdout: string)
      returns (res: Result<Option<(Path, string)>>)
      requires Valid()
      modifies this
      ensures Valid()
      ensures url == old(url) && body == old(body) && fileNames == old(fileNames)
      ensures outfile == old(outfile) && Started() == old(Started()) && id == old(id)
      ensures succeededFlag == (old(succeededFlag) || (StatusOf(id, token, response).Ok? && Completed(response)))
      ensures StatusOf(id, token, response).Err? ==> res == Err(StatusOf(id, token, response).error)
      ensures StatusOf(id, token, response).Ok? ==>
        res == FinalOutcome(StatusOf(id, token, response).value && succeededFlag, outputToken, outfile, stdout)
    {
      var finished := Finished(token, response);
      if finished.Err? {
        return Err(finished.error);
      }
      var done := finished.value && Succeeded();
      if !done {
        return Err(RuntimeError);
      }
      if Truthy(outfile) {
        if outputToken.None? {
          return Err(RuntimeError);
        }
        return Ok(Some((outfile.value, stdout)));
      }
      return Ok(None);
    }
  }

  /** The job's status names a finished job: present and neither pending
      nor running. */
  predicate Terminal(response: StatusResponse) {
    response.status.Some? && response.status.value != "pending" && response.status.value != "running"
  }

  /** The job's status is `completed`. */
  predicate Completed(response: StatusResponse) {
    response.status == Some("completed")
  }

  /** What `finished()` returns or raises for a job with id `id`. */
  function StatusOf(id: Option<int>, token: Option<string>, response: StatusResponse): (r: Result<bool>)
    ensures r.Ok? <==> id.Some? && token.Some? && response.statusCode == 200
    ensures id.None? ==> r == Err(TypeError)
    ensures id.Some? && !(r.Ok?) ==> r == Err(RuntimeError)
    ensures r.Ok? ==> (r.value <==> Terminal(response))
  {
    if id.None? then Err(TypeError)
    else if token.None? then Err(RuntimeError)
    else if response.statusCode != 200 then Err(RuntimeError)
    else Ok(Terminal(response))
  }

  /** What `finalise()` returns once `finished()` has answered: the file it
      writes, if any. */
  function FinalOutcome(done: bool, token: Option<string>, outfile: Option<Path>, stdout: string)
    : (r: Result<Option<(Path, string)>>)
    ensures !done ==> r == Err(RuntimeError)
    ensures done && !Truthy(outfile) ==> r == Ok(None)
    ensures done && Truthy(outfile) ==> r == (if token.Some? then Ok(Some((outfile.value, stdout))) else Err(RuntimeError))
  {
    if !done then Err(RuntimeError)
    else if !Truthy(outfile) then Ok(None)
    else if token.None? then Err(RuntimeError)
    else Ok(Some((outfile.value, stdout)))
  }

  /** A completed job is a finished one, so the status query that records
      success also lets `finalise()` through. */
  lemma CompletedIsTerminal(response: StatusResponse)
    requires Completed(response)
    ensures Terminal(response)
  {
  }

  /** `finalise()` succeeds exactly when the status query goes through and
      says the job is finished, and success was recorded now or before. */
  lemma FinaliseSucceeds(id: Option<int>, token: Option<string>, response: StatusResponse,
                         succeeded: bool, outfile: Option<Path>, outputToken: Option<string>, stdout: string)
    ensures var s := StatusOf(id, token, response);
      var after := succeeded || (s.Ok? && Completed(response));
      (s.Ok? && FinalOutcome(s.value && after, outputToken, outfile, stdout).Ok?) <==>
        && id.Some? && token.Some? && response.statusCode == 200 && Terminal(response) && after
        && (Truthy(outfile) ==> outputToken.Some?)
  {
  }

  /** `ExecuteProminence`: the action that turns a run directory into a
      Prominence job. `dep` is the job description template read from its
      JSON file. */
  class ExecuteProminence {
    var dep: Job
    var inputFileNames: seq<Path>
    var outputFileName: Option<Path>
    var url: string

    constructor (dep: Job, inputFileNames: seq<Path>, outputFileName: Option<Path>, url: string)
      ensures this.dep == dep && this.inputFileNames == inputFileNames
      ensures this.outputFileName == outputFileName && this.url == url
    {
      this.dep := dep;
      this.inputFileNames := inputFileNames;
      this.outputFileName := outputFileName;
      this.url := url;
    }

    /** The tasks of the template, each set to run in `target`, in order. */
    static method RunIn(tasks: seq<Task>, target: Path) returns (out: seq<Task>)
      ensures |out| == |tasks|
      ensures forall i :: 0 <= i < |out| ==> out[i].workdir == Some(target) && out[i].other == tasks[i].other
    {
      out := [];
      var i := 0;
      while i < |tasks|
        invariant 0 <= i <= |tasks|
        invariant |out| == i
        invariant forall j :: 0 <= j < i ==> out[j].workdir == Some(target) && out[j].other == tasks[j].other
      {
        var task := tasks[i].(workdir := Some(target));
        out := out + [task];
        i := i + 1;
      }
    }

    /** `act_on_dir(target)`: a fresh status object for a job named after the
        run directory, whose tasks all run there, with the input and output
        files taken relative to it. The template itself is left as it was
        (it is deep-copied); a template without `tasks` raises KeyError. */
    method ActOnDir(target: Path) returns (res: Result<ActionStatusProminence>)
      ensures dep.tasks.None? <==> res.Err?
      ensures res.Err? ==> res.error == KeyError
      ensures res.Ok? ==>
        var s := res.value;
        && fresh(s) && s.Valid() && !s.Started() && !s.Succeeded() && s.id.None?
        && s.url == url
        && s.body.name == Some(target)
        && s.body.inputs == dep.inputs && s.body.other == dep.other
        && s.body.tasks.Some? && |s.body.tasks.value| == |dep.tasks.value|
        && (forall i :: 0 <= i < |dep.tasks.value| ==>
              s.body.tasks.value[i].workdir == Some(target)
              && s.body.tasks.value[i].other == dep.tasks.value[i].other)
        && |s.fileNames| == |inputFileNames|
        && (forall i :: 0 <= i < |inputFileNames| ==> s.fileNames[i] == Join(target, inputFileNames[i]))
        && s.outfile == (if Truthy(outputFileName) then Some(Join(target, outputFileName.value)) else None)
    {
      var names := inputFileNames;
      var fileNames := seq(|names|, i requires 0 <= i < |names| => Join(target, names[i]));
      var job := dep.(name := Some(target));
      if job.tasks.None? {
        return Err(KeyError);
      }
      var tasks := RunIn(job.tasks.value, target);
      job := job.(tasks := Some(tasks));
      var output: Option<Path> := None;
      if Truthy(outputFileName) {
        output := Some(Join(target, outputFileName.value));
      }
      var status := new ActionStatusProminence(url, job, fileNames, output);
      return Ok(status);
    }
  }
}
