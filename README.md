# Registry ingress installer — Dafny model

This project models the `docker-registry-ingress` installer of arkade
(`cmd/apps/registry_ingress_app.go`). The command exposes a Docker registry
that is already in the cluster through an Ingress with TLS. It checks its
flags and asks the cluster which API groups it serves. It then renders one
YAML document holding an Ingress and a cert-manager Issuer, writes it to a
temporary file and runs `kubectl apply -f` on that file.

The model has four modules:

- `Wrappers` (`wrappers.dfy`): `Option` and `Result`.
- `Template` (`template.dfy`): the part of Go's `text/template` the manifest
  uses.
  - A template is a sequence of literal segments and `{{.Name}}` actions.
  - `Print` gives the text a sequence of segments stands for, and `Parse`
    reads such text back.
  - `Execute` renders a parsed template against the data record. It fails
    on the first field the record lacks, with no output.
  - `Substitute` is the reference semantics `Execute` is proved against.
- `RegistryIngress` (`registry_ingress.dfy`): the `RegInputData` record and
  how `buildRegistryYAML` fills it in (issuer pair by `staging`, annotation
  line for `nginx`).
  - The legacy (`extensions/v1beta1`) template is written as 24 segments, and
    its text is the printed form of those segments.
  - `BuildRegistryYAML` parses that text and executes it.
  - Lemmas say where each value lands in the rendered manifest.
- `InstallCommand` (`install_command.dfy`): the body of the command's `RunE`
  as a pipeline of five steps: validate, capabilities, render, write, apply.
  - A run is the outcome plus the steps attempted, and the first failure ends
    it.
  - The cluster query, the temporary-file writer and `kubectl` are
    collaborators, passed in as a value and two functions.

The capability flag `hasNetworking` has no effect. The command computes it
from the cluster's API groups (line 75) and passes it to `buildRegistryYAML`
(line 77), but that function always parses the legacy template (line 111).
The comments at lines 176 and 217-218 and the unused `networking.k8s.io/v1`
template at lines 219-260 suggest the flag was meant to choose between the
two templates. The model follows the code: `NetworkingIgnored` proves the
flag makes no difference, and the networking template is not modelled.

## Model

| member | source | states |
|---|---|---|
| Template.ParsePrint | cmd/apps/registry_ingress_app.go:111-116 | parsing the printed text of a well-formed segment list gives back exactly that list, so the template text parses without error |
| Template.PrintParse | cmd/apps/registry_ingress_app.go:112-116 | any text `Parse` accepts is the printed form of what it returns: parsing loses nothing |
| Template.ReadSegment | cmd/apps/registry_ingress_app.go:112 | one parsing step: success consumes a non-empty prefix that prints back as the segment read; failure happens only at a `{{` (that every `{{.Name}}` action is read is shown by `ReadField`) |
| Template.Execute | cmd/apps/registry_ingress_app.go:137-145 | execution succeeds exactly when every action names a field of the record; the output is then the reference substitution; otherwise the error names a missing field at the first unresolved action, and there is no output |
| Template.SubstituteIsConcat | cmd/apps/registry_ingress_app.go:139 | the rendered text is the concatenation of what each segment contributes, in template order |
| Template.SubstituteAppend | cmd/apps/registry_ingress_app.go:139 | rendering two templates one after the other equals rendering their concatenation |
| RegistryIngress.FieldValues | cmd/apps/registry_ingress_app.go:22-30 | each exported field name of `RegInputData` looks up that field's value |
| RegistryIngress.InputData | cmd/apps/registry_ingress_app.go:118-135 | the flag values are copied verbatim; the issuer name and ACME server are the production pair unless `staging`, then the staging pair, and always one of the two pairs; the buffer annotation is non-empty exactly for the `nginx` class and is then the proxy-body-size line with the size |
| RegistryIngress.ExtensionsWellFormed | cmd/apps/registry_ingress_app.go:177-215 | the legacy template is in the parsable form: literals free of `{`, each followed by an action, and every action an identifier |
| RegistryIngress.ExtensionsResolve | cmd/apps/registry_ingress_app.go:177-215 | every action of the legacy template names a field of `RegInputData`, so execution cannot fail |
| RegistryIngress.BuildRegistryYAML | cmd/apps/registry_ingress_app.go:110-146 | the build never fails; it returns the manifest of the record built from the flags, whatever `hasNetworking` is |
| RegistryIngress.ManifestLayout | cmd/apps/registry_ingress_app.go:177-215 | the manifest is the template's literal lines with the record's values spliced in verbatim, nothing added and nothing escaped |
| RegistryIngress.IngressPieces | cmd/apps/registry_ingress_app.go:177-199 | the Ingress half of the rendering agrees piece by piece with the layout |
| RegistryIngress.IssuerPieces | cmd/apps/registry_ingress_app.go:200-215 | the Issuer half of the rendering agrees piece by piece with the layout |
| RegistryIngress.DomainPlaceholders | cmd/apps/registry_ingress_app.go:189-198 | the domain fills exactly two placeholders, the rule host and the TLS hosts entry |
| RegistryIngress.IssuerTypePlaceholders | cmd/apps/registry_ingress_app.go:184-211 | the issuer name fills exactly three placeholders: the Ingress's issuer annotation, the Issuer's name and its private-key secret |
| RegistryIngress.NamespacePlaceholders | cmd/apps/registry_ingress_app.go:182-205 | the namespace fills exactly the metadata namespace of both resources |
| RegistryIngress.IngressClassPlaceholders | cmd/apps/registry_ingress_app.go:185-215 | the ingress class fills exactly the Ingress's class annotation and the HTTP-01 solver's class |
| RegistryIngress.SinglePlaceholders | cmd/apps/registry_ingress_app.go:186-209 | email, ACME server and buffer annotation each fill one placeholder; the annotation stands on a line of its own |
| RegistryIngress.NetworkingIgnored | cmd/apps/registry_ingress_app.go:110-111 | the rendered bytes are the same for both values of `hasNetworking` |
| RegistryIngress.IssuerFollowsStaging | cmd/apps/registry_ingress_app.go:123-131 | all three issuer-name placeholders hold one name, and that name and the ACME server are the staging pair exactly when `staging`, else the production pair |
| RegistryIngress.AnnotationOnlyForNginx | cmd/apps/registry_ingress_app.go:133-135 | under the annotations the manifest has the proxy-body-size line with the size for the `nginx` class and an empty line for any other class |
| RegistryIngress.FlagsVerbatim | cmd/apps/registry_ingress_app.go:118-122 | domain, namespace, ingress class and email reach each of their placeholders unchanged |
| InstallCommand.ValidateFlags | cmd/apps/registry_ingress_app.go:62-68 | an empty email or domain gives the email-and-domain error; otherwise an empty ingress class gives its own error; all three set gives no error |
| InstallCommand.HasNetworking | cmd/apps/registry_ingress_app.go:75 | the flag is true exactly when the cluster reported `networking.k8s.io/v1` as true; an unreported group counts as false |
| InstallCommand.RunInstall | cmd/apps/registry_ingress_app.go:62-100 | the steps attempted are a prefix of validate, capabilities, render, write, apply; a failure is reported by the last step attempted; success means all five ran; the run stops after validation exactly when the flags are invalid |
| InstallCommand.WriteAndApply | cmd/apps/registry_ingress_app.go:83-100 | the rendered bytes are written under `temp_registry_ingress.yaml`; apply runs, with `apply -f` and the returned path, exactly when the write succeeded; a write or kubectl error is passed on unchanged and ends the run |
| InstallCommand.ValidationStopsEarly | cmd/apps/registry_ingress_app.go:62-68 | invalid flags end the run with the validation error before any collaborator is consulted, whatever the collaborators would do |
| InstallCommand.CapabilitiesIrrelevant | cmd/apps/registry_ingress_app.go:70-77 | once the capability query succeeds, which groups it reports does not change the run |
| InstallCommand.WrittenContentIsManifest | cmd/apps/registry_ingress_app.go:77-83 | the file written is the manifest of the record built from the flags, under the fixed temporary name |
| InstallCommand.SucceedsIff | cmd/apps/registry_ingress_app.go:62-104 | the command succeeds exactly when the flags are valid, the capability query, the write and the apply call all succeed, and the apply exits with 0 |
| InstallCommand.ApplyFailureEmbedsStderr | cmd/apps/registry_ingress_app.go:89-100 | apply gets `apply -f` with the path the writer returned; a non-zero exit code fails with the fixed hint followed by the apply call's stderr |
| InstallCommand.StopsAtFirstFailure | cmd/apps/registry_ingress_app.go:70-100 | with valid flags, a failed capability query, temporary-file write or kubectl call ends the run with that collaborator's error passed on unchanged, and a non-zero apply exit ends it with the fixed hint followed by the apply call's stderr; in each case the steps attempted end with the failing one |

## Left out

- Command construction and flag plumbing (lines 32-49, 51-60, 76): cobra, flag
  parsing and their defaults (`nginx`, `200m`, `default`) are not modelled.
  `Flags` holds the values after parsing.
- `config.SetKubeconfig` (lines 51-54) is not modelled. It runs before flag
  validation, so a kubeconfig error would come before any step of `RunInstall`.
- The networking template (lines 217-260) is dead code: `buildRegistryYAML`
  never reads it.
- `text/template` beyond literal text and `{{.Name}}` actions. Any other action
  is reported as a `ParseError` at that point. This includes actions with
  spaces such as `{{ .Name }}` and field names with non-ASCII letters. The
  wording of Go's error messages is not modelled.
- Bytes: the manifest and stderr are strings of characters. The UTF-8 encoding
  of `[]byte` is not modelled.
- Logging and output: `log.Print` calls (lines 79, 85, 92) and the success
  banner (lines 102, 148-174) produce no value and are not modelled.
- The cluster query, the temporary-file write and `kubectl` run outside the
  program. They are inputs of `RunInstall` in `Collaborators`: the query
  result, a function from content and file name to a path or an error, and a
  function from arguments to an exit code and stderr, or an error.
- Whether the manifest is valid YAML is not stated.
- Whole-text claims such as "the output mentions only one issuer" are stated
  per placeholder. A flag value may itself contain any text, so the
  whole-string forms do not hold.
