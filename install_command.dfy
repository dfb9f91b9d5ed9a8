/**
 * The `docker-registry-ingress` command body: check the flags, ask the cluster
 * for its API groups, render the manifest, write it to a temporary file and
 * apply it. Each step may fail and the first failure ends the command.
 *
 * The cluster query, the file write and the apply call are collaborators this
 * model cannot see; each is given as a value or a function of its inputs.
 */
module InstallCommand {
  import opened Wrappers
  import opened Template
  import opened RegistryIngress

  /** The flag values the command reads (already parsed, defaults applied). */
  datatype Flags = Flags(
    email: string,
    domain: string,
    ingressClass: string,
    namespace: string,
    maxSize: string,
    staging: bool)

  /** What an apply run reports back: its exit code and its standard error. */
  datatype ExecResult = ExecResult(exitCode: int, stderr: string)

  /**
   * The command's collaborators: the API groups the cluster reports (or the
   * error the query returned), the temporary-file writer, taking the content and
   * a file name to a path, and the apply runner, taking its arguments.
   */
  datatype Collaborators = Collaborators(
    capabilities: Result<map<string, bool>, string>,
    writeTempFile: (string, string) -> Result<string, string>,
    kubectl: seq<string> -> Result<ExecResult, string>)

  datatype Error =
    | InvalidFlags(message: string)
    | CapabilitiesFailed(cause: string)
    | TemplateFailed(templateError: TemplateError)
    | TempFileFailed(cause: string)
    | KubectlFailed(cause: string)
    | ApplyFailed(message: string)

  const EmailAndDomainRequired := "both --email and --domain flags should be set and not empty, please set these values"
  const IngressClassRequired := "--ingress-class must be set"
  const ApplyFailedHint := "Unable to apply YAML files.\nHave you got the Registry running and cert-manager 0.11.0 or higher installed? "
  const NetworkingV1 := "networking.k8s.io/v1"
  const TempFileName := "temp_registry_ingress.yaml"

  /** A step the command attempts, with what it hands to the collaborator. */
  datatype Step =
    | Validate
    | GetCapabilities
    | Render
    | WriteTempFile(content: string, fileName: string)
    | Apply(args: seq<string>)

  /** The position of a step in the command's fixed order. */
  function Stage(s: Step): nat {
    match s
    case Validate => 0
    case GetCapabilities => 1
    case Render => 2
    case WriteTempFile(_, _) => 3
    case Apply(_) => 4
  }

  /** The step at which an error arises. */
  function FailingStage(e: Error): nat {
    match e
    case InvalidFlags(_) => 0
    case CapabilitiesFailed(_) => 1
    case TemplateFailed(_) => 2
    case TempFileFailed(_) => 3
    case KubectlFailed(_) => 4
    case ApplyFailed(_) => 4
  }

  /** Each attempted step sits at its own stage: the steps are a prefix of the fixed order. */
  predicate InPipelineOrder(steps: seq<Step>) {
    && (|steps| > 0 ==> Stage(steps[0]) == 0)
    && (|steps| > 1 ==> Stage(steps[1]) == 1)
    && (|steps| > 2 ==> Stage(steps[2]) == 2)
    && (|steps| > 3 ==> Stage(steps[3]) == 3)
    && (|steps| > 4 ==> Stage(steps[4]) == 4)
  }

  datatype Outcome = Ok | Fail(error: Error)

  /** How a run ended, and the steps it attempted, in order. */
  datatype Run = Run(outcome: Outcome, steps: seq<Step>)

  /** The flag check that runs before any collaborator is called. */
  function ValidateFlags(email: string, domain: string, ingressClass: string): (r: Option<Error>)
    ensures r == Some(InvalidFlags(EmailAndDomainRequired)) <==> email == "" || domain == ""
    ensures r == Some(InvalidFlags(IngressClassRequired)) <==> email != "" && domain != "" && ingressClass == ""
    ensures r == None <==> email != "" && domain != "" && ingressClass != ""
  {
    if email == "" || domain == "" then Some(InvalidFlags(EmailAndDomainRequired))
    else if ingressClass == "" then Some(InvalidFlags(IngressClassRequired))
    else None
  }

  /** Whether the cluster serves networking.k8s.io/v1; a group it did not report counts as absent. */
  function HasNetworking(caps: map<string, bool>): (b: bool)
    ensures b <==> NetworkingV1 in caps && caps[NetworkingV1]
  {
    if NetworkingV1 in caps then caps[NetworkingV1] else false
  }

  /**
   * One run of the command. The attempted steps are always a prefix of
   * Validate, GetCapabilities, Render, WriteTempFile, Apply; a failed run ends
   * with the step that failed, and a successful one has attempted all five.
   */
  function RunInstall(f: Flags, c: Collaborators): (r: Run)
    ensures 1 <= |r.steps| <= 5
    ensures InPipelineOrder(r.steps)
    ensures r.outcome.Ok? ==> |r.steps| == 5
    ensures r.outcome.Fail? ==> FailingStage(r.outcome.error) == |r.steps| - 1
    ensures |r.steps| == 1 <==> ValidateFlags(f.email, f.domain, f.ingressClass).Some?
  {
    match ValidateFlags(f.email, f.domain, f.ingressClass)
    case Some(err) => Run(Fail(err), [Validate])
    case None =>
      match c.capabilities
      case Failure(cause) => Run(Fail(CapabilitiesFailed(cause)), [Validate, GetCapabilities])
      case Success(caps) =>
        var hasNetworking := HasNetworking(caps);
        match BuildRegistryYAML(f.domain, f.email, f.ingressClass, f.namespace, f.maxSize, f.staging, hasNetworking)
        case Failure(cause) => Run(Fail(TemplateFailed(cause)), [Validate, GetCapabilities, Render])
        case Success(yamlBytes) =>
          var tail := WriteAndApply(yamlBytes, c);
          var steps := [Validate, GetCapabilities, Render] + tail.steps;
          Run(tail.outcome, steps)
  }

  /**
   * The last two steps: write the rendered manifest to a temporary file, then
   * apply that file; a non-zero exit code becomes an error carrying stderr.
   */
  function WriteAndApply(yamlBytes: string, c: Collaborators): (r: Run)
    ensures |r.steps| in {1, 2}
    ensures r.steps[0] == WriteTempFile(yamlBytes, TempFileName)
    ensures |r.steps| == 2 ==> r.steps[1].Apply?
    ensures InPipelineOrder([Validate, GetCapabilities, Render] + r.steps)
    ensures |r.steps| == 2 <==> c.writeTempFile(yamlBytes, TempFileName).Success?
    ensures c.writeTempFile(yamlBytes, TempFileName).Failure? ==>
      r.outcome == Fail(TempFileFailed(c.writeTempFile(yamlBytes, TempFileName).error))
    ensures c.writeTempFile(yamlBytes, TempFileName).Success? ==>
      var args := ["apply", "-f", c.writeTempFile(yamlBytes, TempFileName).value];
      && r.steps[1] == Apply(args)
      && (c.kubectl(args).Failure? ==> r.outcome == Fail(KubectlFailed(c.kubectl(args).error)))
    ensures r.outcome.Ok? ==> |r.steps| == 2
    ensures r.outcome.Fail? ==> FailingStage(r.outcome.error) == |r.steps| + 2
  {
    var write := WriteTempFile(yamlBytes, TempFileName);
    match c.writeTempFile(yamlBytes, TempFileName)
    case Failure(cause) => Run(Fail(TempFileFailed(cause)), [write])
    case Success(tempFile) =>
      var args := ["apply", "-f", tempFile];
      var steps := [write, Apply(args)];
      match c.kubectl(args)
      case Failure(cause) => Run(Fail(KubectlFailed(cause)), steps)
      case Success(res) =>
        if res.exitCode != 0 then Run(Fail(ApplyFailed(ApplyFailedHint + res.stderr)), steps)
        else Run(Ok, steps)
  }

  /** A flag error ends the run before any collaborator is consulted. */
  lemma ValidationStopsEarly(f: Flags, c: Collaborators, c': Collaborators)
    requires ValidateFlags(f.email, f.domain, f.ingressClass).Some?
    ensures RunInstall(f, c) == RunInstall(f, c')
    ensures RunInstall(f, c) == Run(Fail(ValidateFlags(f.email, f.domain, f.ingressClass).value), [Validate])
  {
  }

  /**
   * Which API groups the cluster reports makes no difference once the query
   * succeeds: the manifest does not depend on networking.k8s.io/v1.
   */
  lemma CapabilitiesIrrelevant(f: Flags, c: Collaborators, caps: map<string, bool>)
    requires c.capabilities.Success?
    ensures RunInstall(f, c) == RunInstall(f, c.(capabilities := Success(caps)))
  {
    NetworkingIgnored(f.domain, f.email, f.ingressClass, f.namespace, f.maxSize, f.staging);
  }

  /** The file written is the rendered manifest, under the fixed temporary name. */
  lemma WrittenContentIsManifest(f: Flags, c: Collaborators)
    requires |RunInstall(f, c).steps| >= 4
    ensures RunInstall(f, c).steps[3]
      == WriteTempFile(Manifest(InputData(f.domain, f.email, f.ingressClass, f.namespace, f.maxSize, f.staging)), TempFileName)
  {
  }

  /** The run succeeds exactly when every collaborator succeeds and the apply exits with 0. */
  lemma SucceedsIff(f: Flags, c: Collaborators)
    ensures RunInstall(f, c).outcome.Ok? <==>
      && ValidateFlags(f.email, f.domain, f.ingressClass).None?
      && c.capabilities.Success?
      && var manifest := Manifest(InputData(f.domain, f.email, f.ingressClass, f.namespace, f.maxSize, f.staging));
      && c.writeTempFile(manifest, TempFileName).Success?
      && c.kubectl(["apply", "-f", c.writeTempFile(manifest, TempFileName).value]).Success?
      && c.kubectl(["apply", "-f", c.writeTempFile(manifest, TempFileName).value]).value.exitCode == 0
  {
  }

  /** The apply step is handed the path the writer returned; a non-zero exit reports its stderr after the hint. */
  lemma ApplyFailureEmbedsStderr(yamlBytes: string, c: Collaborators, path: string, res: ExecResult)
    requires c.writeTempFile(yamlBytes, TempFileName) == Success(path)
    requires c.kubectl(["apply", "-f", path]) == Success(res)
    requires res.exitCode != 0
    ensures WriteAndApply(yamlBytes, c)
      == Run(Fail(ApplyFailed(ApplyFailedHint + res.stderr)), [WriteTempFile(yamlBytes, TempFileName), Apply(["apply", "-f", path])])
  {
  }

  /**
   * The first failing collaborator ends the run: its error is passed on
   * unchanged (a non-zero apply exit as the hint followed by its stderr) and
   * no later step is attempted.
   */
  lemma StopsAtFirstFailure(f: Flags, c: Collaborators)
    requires ValidateFlags(f.email, f.domain, f.ingressClass).None?
    ensures c.capabilities.Failure? ==>
      RunInstall(f, c) == Run(Fail(CapabilitiesFailed(c.capabilities.error)), [Validate, GetCapabilities])
    ensures c.capabilities.Success? ==>
      var m := Manifest(InputData(f.domain, f.email, f.ingressClass, f.namespace, f.maxSize, f.staging));
      var write := c.writeTempFile(m, TempFileName);
      && (write.Failure? ==>
            RunInstall(f, c)
              == Run(Fail(TempFileFailed(write.error)), [Validate, GetCapabilities, Render, WriteTempFile(m, TempFileName)]))
      && (write.Success? && c.kubectl(["apply", "-f", write.value]).Failure? ==>
            RunInstall(f, c)
              == Run(Fail(KubectlFailed(c.kubectl(["apply", "-f", write.value]).error)),
                     [Validate, GetCapabilities, Render, WriteTempFile(m, TempFileName), Apply(["apply", "-f", write.value])]))
      && (write.Success? && c.kubectl(["apply", "-f", write.value]).Success?
          && c.kubectl(["apply", "-f", write.value]).value.exitCode != 0 ==>
            RunInstall(f, c)
              == Run(Fail(ApplyFailed(ApplyFailedHint + c.kubectl(["apply", "-f", write.value]).value.stderr)),
                     [Validate, GetCapabilities, Render, WriteTempFile(m, TempFileName), Apply(["apply", "-f", write.value])]))
  {
  }
}
