/** The code executor: fixed per-language tables, the shaping of every way a run
    can end into one result record, local execution through a temporary file
    that is always removed, container execution in a temporary directory that
    is always removed, and the fall-back to local execution when Docker cannot
    be reached. The child process, the Docker daemon and the temporary-name
    generator are outside the model: their answers enter as parameters. */
module Executor {
  import opened Seqs
  import opened Strings

  const PythonImage: string := "python:3.11-slim"
  const NodeImage: string := "node:18-slim"
  const MemoryLimit: string := "512m"
  const Workspace: string := "/workspace"

  // ---------------------------------------------------------------- language tables

  /** Languages with an extension of their own; every other language gets "txt". */
  const Extensions: map<string, string> :=
    map["python" := "py", "javascript" := "js", "java" := "java", "go" := "go", "rust" := "rs"]

  /** `_get_extension`: the file extension for a language, looked up case-insensitively. */
  function Extension(language: string): (ext: string)
    ensures ext in {"py", "js", "java", "go", "rs", "txt"}
    ensures ext == "txt" <==> Lower(language) !in Extensions
    ensures ext != "txt" ==> Extensions[Lower(language)] == ext
  {
    var key := Lower(language);
    if key in Extensions then Extensions[key] else "txt"
  }

  /** The lookup ignores case: a language and its lower-case spelling share an extension. */
  lemma ExtensionIgnoresCase(language: string)
    ensures Extension(Lower(language)) == Extension(language)
  {
    LowerIdempotent(language);
  }

  /** Each specific extension names exactly one language of the table. */
  lemma ExtensionDeterminesLanguage(a: string, b: string)
    requires Extension(a) == Extension(b) != "txt"
    ensures Lower(a) == Lower(b)
  {
  }

  /** `_get_command`: the local command line. Python and JavaScript run their
      interpreter on the file followed by the arguments; any other language
      prints the file with `cat` and drops the arguments. */
  function Command(language: string, file: string, args: seq<string>): (cmd: seq<string>)
    ensures |cmd| >= 2 && cmd[1] == file
    ensures Lower(language) == "python" ==> cmd == ["python3", file] + args
    ensures Lower(language) == "javascript" ==> cmd == ["node", file] + args
    ensures Lower(language) != "python" && Lower(language) != "javascript" ==> cmd == ["cat", file]
  {
    var commands := map["python" := ["python3", file] + args, "javascript" := ["node", file] + args];
    var key := Lower(language);
    if key in commands then commands[key] else ["cat", file]
  }

  /** `_get_container_command`: the command run inside the container. */
  function ContainerCommand(language: string, fileName: string, args: seq<string>): seq<string>
  {
    var commands := map["python" := ["python3", fileName] + args, "javascript" := ["node", fileName] + args];
    var key := Lower(language);
    if key in commands then commands[key] else ["cat", fileName]
  }

  /** The container table agrees with the local table entry for entry. */
  lemma ContainerCommandIsLocalCommand(language: string, fileName: string, args: seq<string>)
    ensures ContainerCommand(language, fileName, args) == Command(language, fileName, args)
  {
  }

  /** `_get_docker_image`: the Node image for JavaScript, the Python image for everything else. */
  function DockerImage(language: string): (image: string)
    ensures image == NodeImage <==> Lower(language) == "javascript"
    ensures image != NodeImage ==> image == PythonImage
  {
    var images := map["python" := PythonImage, "javascript" := NodeImage];
    var key := Lower(language);
    if key in images then images[key] else PythonImage
  }

  // ---------------------------------------------------------------- results

  /** The result record every execution path returns. */
  datatype ExecutionResult = ExecutionResult(stdout: string, stderr: string, returnCode: int, success: bool)

  /** How `subprocess.run` ended for a local run. */
  datatype RunOutcome =
    | Exited(code: int, out: string, err: string)   // the child exited with this status
    | TimedOut                                      // `TimeoutExpired`
    | Raised(message: string)                       // any other exception, with `str(e)`

  /** How `containers.run` ended for a container run. */
  datatype ContainerOutcome =
    | Completed(output: string)                     // the container's output, already decoded
    | ContainerFailed(exitStatus: int, out: string, err: string, message: string)
                                                    // `ContainerError`; empty `out`/`err` stand for absent streams.
                                                    // The handler reads `e.stdout` as well as `e.stderr`; the model
                                                    // assumes the exception carries both.
    | DockerRaised(message: string)                 // any other exception, with `str(e)`

  function TimeoutMessage(timeout: int): string
  {
    "Execution timeout after " + IntToString(timeout) + " seconds"
  }

  /** The result for a local run (the three branches of `_execute_locally`). */
  function LocalResult(outcome: RunOutcome, timeout: int): (r: ExecutionResult)
    ensures r.success <==> r.returnCode == 0
    ensures outcome.Exited? ==> r.stdout == outcome.out && r.stderr == outcome.err && r.returnCode == outcome.code
    ensures !outcome.Exited? ==> r.stdout == "" && r.returnCode == -1 && !r.success
    ensures outcome.TimedOut? ==> r.stderr == TimeoutMessage(timeout)
    ensures outcome.Raised? ==> r.stderr == outcome.message
  {
    match outcome
    case Exited(code, out, err) => ExecutionResult(out, err, code, code == 0)
    case TimedOut => ExecutionResult("", TimeoutMessage(timeout), -1, false)
    case Raised(message) => ExecutionResult("", message, -1, false)
  }

  /** The result for a container run (the three branches of `_execute_in_docker`). */
  function ContainerResult(outcome: ContainerOutcome): (r: ExecutionResult)
    ensures r.success ==> r.returnCode == 0 && outcome.Completed?
    ensures outcome.Completed? ==> r == ExecutionResult(outcome.output, "", 0, true)
    ensures outcome.ContainerFailed? ==>
      r.stdout == outcome.out && r.returnCode == outcome.exitStatus
      && r.stderr == (if outcome.err != "" then outcome.err else outcome.message)
    ensures outcome.DockerRaised? ==> r == ExecutionResult("", outcome.message, -1, false)
  {
    match outcome
    case Completed(output) => ExecutionResult(output, "", 0, true)
    case ContainerFailed(status, out, err, message) =>
      ExecutionResult(out, if err != "" then err else message, status, false)
    case DockerRaised(message) => ExecutionResult("", message, -1, false)
  }

  /** Both modes return the same shape: `success` is exactly `returnCode == 0`
      (Docker raises `ContainerError` only for a non-zero exit status). */
  lemma UniformSuccess(local: RunOutcome, timeout: int, remote: ContainerOutcome)
    requires remote.ContainerFailed? ==> remote.exitStatus != 0
    ensures LocalResult(local, timeout).success <==> LocalResult(local, timeout).returnCode == 0
    ensures ContainerResult(remote).success <==> ContainerResult(remote).returnCode == 0
  {
  }

  /** A timed-out local run mentions "timeout" in its error text, whatever the case. */
  lemma TimeoutIsReported(timeout: int)
    ensures Contains(Lower(LocalResult(TimedOut, timeout).stderr), "timeout")
  {
    var message := TimeoutMessage(timeout);
    var lowered := Lower(message);
    assert message[10..17] == "timeout";
    assert lowered[10..17] == "timeout";
    ContainsAt(lowered, "timeout", 10);
  }

  // ---------------------------------------------------------------- environment

  /** `os.environ.copy()` updated with the caller's variables. */
  function ChildEnv(environ: map<string, string>, overrides: map<string, string>): (env: map<string, string>)
    ensures env.Keys == environ.Keys + overrides.Keys
    ensures forall k :: k in overrides ==> env[k] == overrides[k]
    ensures forall k :: k in environ && k !in overrides ==> env[k] == environ[k]
  {
    environ + overrides
  }

  /** What is handed to Docker for one run. */
  datatype ContainerRequest = ContainerRequest(
    image: string,
    command: seq<string>,
    hostDir: string,                 // the temporary directory that is mounted
    mounted: map<string, string>,    // its files, by name
    bind: string,
    readOnly: bool,
    workingDir: string,
    environment: map<string, string>,
    remove: bool,
    memLimit: string,
    networkDisabled: bool)

  /** The request `_execute_in_docker` makes: the code as the only file of a
      read-only workspace, only the caller's variables as environment, 512 MB
      of memory, removal after exit, and no network when sandboxing is on. */
  function ContainerRequestFor(language: string, hostDir: string, code: string, args: seq<string>,
                               envVars: map<string, string>, sandboxing: bool): (req: ContainerRequest)
    ensures req.image == DockerImage(language)
    ensures req.mounted == map["code." + Extension(language) := code]
    ensures req.command == Command(language, "code." + Extension(language), args)
    ensures req.hostDir == hostDir && req.bind == Workspace && req.workingDir == Workspace && req.readOnly
    ensures req.environment == envVars && req.remove && req.memLimit == MemoryLimit
    ensures req.networkDisabled == sandboxing
  {
    var fileName := "code." + Extension(language);
    ContainerRequest(DockerImage(language), ContainerCommand(language, fileName, args), hostDir,
                     map[fileName := code], Workspace, true, Workspace, envVars, true, MemoryLimit,
                     sandboxing)
  }

  /** The path `NamedTemporaryFile` makes from a fresh stem and the language's extension. */
  function TempPath(stem: string, language: string): string
  {
    stem + "." + Extension(language)
  }

  function DockerCodePath(dir: string, language: string): string
  {
    dir + "/code." + Extension(language)
  }

  // ---------------------------------------------------------------- state

  /** The child process: given the command line, the environment and the
      temporary files that exist while it runs, how it ended. */
  type Runner = (seq<string>, map<string, string>, map<string, string>) -> RunOutcome

  /** A reachable Docker daemon: how a container run ends. */
  type DockerClient = ContainerRequest -> ContainerOutcome

  /** The part of the operating system the executor touches: the process
      environment and the temporary files and directories that exist. */
  class Host {
    var environ: map<string, string>
    var tempFiles: map<string, string>
    var tempDirs: set<string>

    constructor(environ: map<string, string>, tempFiles: map<string, string>, tempDirs: set<string>)
      ensures this.environ == environ && this.tempFiles == tempFiles && this.tempDirs == tempDirs
    {
      this.environ := environ;
      this.tempFiles := tempFiles;
      this.tempDirs := tempDirs;
    }
  }

  class CodeExecutor {
    var timeout: int
    var useDocker: bool
    var enableSandboxing: bool
    var dockerClient: Option<DockerClient>

    /** A client is held exactly when Docker mode is on. */
    ghost predicate Valid()
      reads this
    {
      dockerClient.Some? <==> useDocker
    }

    /** `connect` is what `docker.from_env()` gave: a client, or `None` when it raised. */
    constructor(timeout: int, useDocker: bool, enableSandboxing: bool, connect: Option<DockerClient>)
      ensures Valid()
      ensures this.timeout == timeout && this.enableSandboxing == enableSandboxing
      ensures this.useDocker == (useDocker && connect.Some?)
      ensures this.useDocker ==> this.dockerClient == connect
    {
      this.timeout := timeout;
      this.useDocker := useDocker;
      this.enableSandboxing := enableSandboxing;
      if useDocker {
        if connect.Some? {
          this.dockerClient := connect;
        } else {
          // Docker not available: fall back to local execution for good
          this.useDocker := false;
          this.dockerClient := None;
        }
      } else {
        this.dockerClient := None;
      }
    }

    /** `_execute_locally`: write the code to a fresh temporary file, run the
        command for the language with the merged environment, shape the
        outcome, and remove the file on every path. */
    method ExecuteLocally(host: Host, code: string, language: string, args: seq<string>,
                          envVars: map<string, string>, tempStem: string, run: Runner)
      returns (r: ExecutionResult)
      requires TempPath(tempStem, language) !in host.tempFiles
      modifies host
      ensures host.tempFiles == old(host.tempFiles)
      ensures host.tempDirs == old(host.tempDirs) && host.environ == old(host.environ)
      ensures r == LocalResult(run(Command(language, TempPath(tempStem, language), args),
                                   ChildEnv(old(host.environ), envVars),
                                   old(host.tempFiles)[TempPath(tempStem, language) := code]),
                               timeout)
    {
      var tempFile := tempStem + "." + Extension(language);
      host.tempFiles := host.tempFiles[tempFile := code];
      var cmd := Command(language, tempFile, args);
      var env := host.environ;
      if envVars != map[] {
        env := env + envVars;
      }
      assert env == ChildEnv(old(host.environ), envVars);
      var outcome := run(cmd, env, host.tempFiles);
      r := LocalResult(outcome, timeout);
      // `finally`: the temporary file is unlinked whichever way the run ended
      host.tempFiles := host.tempFiles - {tempFile};
      assert host.tempFiles == old(host.tempFiles);
    }

    /** `_execute_in_docker`: without a client, run locally; otherwise write the
        code into a fresh temporary directory, run the container on it, shape
        the outcome, and remove the directory on every path. */
    method ExecuteInDocker(host: Host, code: string, language: string, args: seq<string>,
                           envVars: map<string, string>, tempStem: string, tempDir: string, run: Runner)
      returns (r: ExecutionResult)
      requires Valid()
      requires TempPath(tempStem, language) !in host.tempFiles
      requires tempDir !in host.tempDirs && DockerCodePath(tempDir, language) !in host.tempFiles
      modifies host
      ensures host.tempFiles == old(host.tempFiles)
      ensures host.tempDirs == old(host.tempDirs) && host.environ == old(host.environ)
      ensures dockerClient.None? ==>
        r == LocalResult(run(Command(language, TempPath(tempStem, language), args),
                             ChildEnv(old(host.environ), envVars),
                             old(host.tempFiles)[TempPath(tempStem, language) := code]),
                         timeout)
      ensures dockerClient.Some? ==>
        r == ContainerResult(dockerClient.value(
               ContainerRequestFor(language, tempDir, code, args, envVars, enableSandboxing)))
    {
      if dockerClient.None? {
        r := ExecuteLocally(host, code, language, args, envVars, tempStem, run);
        return;
      }
      host.tempDirs := host.tempDirs + {tempDir};
      var codeFile := tempDir + "/code." + Extension(language);
      host.tempFiles := host.tempFiles[codeFile := code];
      var request := ContainerRequestFor(language, tempDir, code, args, envVars, enableSandboxing);
      var outcome := dockerClient.value(request);
      r := ContainerResult(outcome);
      // leaving the `TemporaryDirectory` block removes the directory and its file
      host.tempFiles := host.tempFiles - {codeFile};
      host.tempDirs := host.tempDirs - {tempDir};
      assert host.tempFiles == old(host.tempFiles);
    }

    /** `execute_python`: the container path in Docker mode, the local path otherwise. */
    method ExecutePython(host: Host, code: string, args: seq<string>, envVars: map<string, string>,
                         tempStem: string, tempDir: string, run: Runner)
      returns (r: ExecutionResult)
      requires Valid()
      requires TempPath(tempStem, "python") !in host.tempFiles
      requires tempDir !in host.tempDirs && DockerCodePath(tempDir, "python") !in host.tempFiles
      modifies host
      ensures host.tempFiles == old(host.tempFiles)
      ensures host.tempDirs == old(host.tempDirs) && host.environ == old(host.environ)
      ensures !useDocker ==>
        r == LocalResult(run(["python3", TempPath(tempStem, "python")] + args,
                             ChildEnv(old(host.environ), envVars),
                             old(host.tempFiles)[TempPath(tempStem, "python") := code]),
                         timeout)
      ensures useDocker ==>
        r == ContainerResult(dockerClient.value(
               ContainerRequestFor("python", tempDir, code, args, envVars, enableSandboxing)))
    {
      assert Lower("python") == "python";
      if useDocker {
        r := ExecuteInDocker(host, code, "python", args, envVars, tempStem, tempDir, run);
      } else {
        r := ExecuteLocally(host, code, "python", args, envVars, tempStem, run);
      }
    }
  }

  /** An executor asked for Docker when `docker.from_env()` fails runs every
      Python program locally. */
  method UnreachableDockerRunsLocally(host: Host, timeout: int, sandboxing: bool, code: string,
                                      args: seq<string>, envVars: map<string, string>,
                                      tempStem: string, tempDir: string, run: Runner)
    returns (r: ExecutionResult)
    requires TempPath(tempStem, "python") !in host.tempFiles
    requires tempDir !in host.tempDirs && DockerCodePath(tempDir, "python") !in host.tempFiles
    modifies host
    ensures host.tempFiles == old(host.tempFiles)
    ensures r == LocalResult(run(["python3", TempPath(tempStem, "python")] + args,
                                 ChildEnv(old(host.environ), envVars),
                                 old(host.tempFiles)[TempPath(tempStem, "python") := code]),
                             timeout)
  {
    var executor := new CodeExecutor(timeout, true, sandboxing, None);
    assert !executor.useDocker && executor.dockerClient.None?;
    r := executor.ExecutePython(host, code, args, envVars, tempStem, tempDir, run);
  }
}
