/**
 * The manifest builder of the `docker-registry-ingress` command: the record of
 * values fed to the template, the legacy (extensions/v1beta1) Ingress plus
 * cert-manager Issuer template, and `BuildRegistryYAML`, which renders it.
 */
module RegistryIngress {
  import opened Wrappers
  import opened Template

  /** The template's data record; every field is a string printed verbatim. */
  datatype RegInputData = RegInputData(
    ingressDomain: string,
    certmanagerEmail: string,
    ingressClass: string,
    namespace: string,
    nginxMaxBuffer: string,
    issuerType: string,
    issuerAPI: string)

  const ProdIssuerType := "letsencrypt-prod-issuer"
  const ProdIssuerAPI := "https://acme-v02.api.letsencrypt.org/directory"
  const StagingIssuerType := "letsencrypt-staging-issuer"
  const StagingIssuerAPI := "https://acme-staging-v02.api.letsencrypt.org/directory"

  /** The annotation line emitted for the nginx ingress class, before the size value. */
  const ProxyBodySizeAnnotation := "    nginx.ingress.kubernetes.io/proxy-body-size: "

  /** The record as text/template sees it: each exported field under its Go name. */
  function Fields(d: RegInputData): Data {
    name =>
      if name == "IngressDomain" then Some(d.ingressDomain)
      else if name == "CertmanagerEmail" then Some(d.certmanagerEmail)
      else if name == "IngressClass" then Some(d.ingressClass)
      else if name == "Namespace" then Some(d.namespace)
      else if name == "NginxMaxBuffer" then Some(d.nginxMaxBuffer)
      else if name == "IssuerType" then Some(d.issuerType)
      else if name == "IssuerAPI" then Some(d.issuerAPI)
      else None
  }

  /** Each Go field name looks up the record's value for that field. */
  lemma FieldValues(d: RegInputData)
    ensures Fields(d)("IngressDomain") == Some(d.ingressDomain)
    ensures Fields(d)("CertmanagerEmail") == Some(d.certmanagerEmail)
    ensures Fields(d)("IngressClass") == Some(d.ingressClass)
    ensures Fields(d)("Namespace") == Some(d.namespace)
    ensures Fields(d)("NginxMaxBuffer") == Some(d.nginxMaxBuffer)
    ensures Fields(d)("IssuerType") == Some(d.issuerType)
    ensures Fields(d)("IssuerAPI") == Some(d.issuerAPI)
  {
  }

  /**
   * The record built from the flag values: production issuer unless `staging`,
   * and a proxy-body-size annotation line only for the "nginx" ingress class.
   */
  function InputData(domain: string, email: string, ingressClass: string, namespace: string,
                     maxSize: string, staging: bool): (d: RegInputData)
    ensures d.ingressDomain == domain && d.certmanagerEmail == email
    ensures d.ingressClass == ingressClass && d.namespace == namespace
    ensures !staging ==> d.issuerType == ProdIssuerType && d.issuerAPI == ProdIssuerAPI
    ensures staging ==> d.issuerType == StagingIssuerType && d.issuerAPI == StagingIssuerAPI
    ensures d.issuerType == ProdIssuerType <==> d.issuerAPI == ProdIssuerAPI
    ensures d.nginxMaxBuffer != "" <==> ingressClass == "nginx"
    ensures ingressClass == "nginx" ==> d.nginxMaxBuffer == ProxyBodySizeAnnotation + maxSize
  {
    var defaults := RegInputData(domain, email, ingressClass, namespace, "", ProdIssuerType, ProdIssuerAPI);
    var issued := if staging then defaults.(issuerType := StagingIssuerType, issuerAPI := StagingIssuerAPI)
                  else defaults;
    if ingressClass == "nginx" then issued.(nginxMaxBuffer := ProxyBodySizeAnnotation + maxSize)
    else issued
  }

  /**
   * Literal template text: non-empty and free of '{', so that no literal can be
   * read as, or run into, the start of an action.
   */
  type LiteralText = s: string | s != [] && '{' !in s witness "\n"

  // The literal text between the placeholders of the legacy template, a few
  // lines at a time.

  const IngressPreamble: LiteralText := "\napiVersion: extensions/v1beta1"
                                      + "\nkind: Ingress"
                                      + "\nmetadata:"
  const IngressNamespaceKey: LiteralText := "\n  name: docker-registry"
                                          + "\n  namespace: "
  const IssuerAnnotationKey: LiteralText := "\n  annotations:"
                                          + "\n    cert-manager.io/issuer: "
  const ClassAnnotationKey: LiteralText := "\n    kubernetes.io/ingress.class: "
  const LineBreak: LiteralText := "\n"
  const RuleHostKey: LiteralText := "\nspec:"
                                  + "\n  rules:"
                                  + "\n  - host: "
  const RulePaths: LiteralText := "\n    http:"
                                + "\n      paths:"
                                + "\n      - backend:"
  const RuleBackend: LiteralText := "\n          serviceName: docker-registry"
                                  + "\n          servicePort: 5000"
  const RulePath: LiteralText := "\n        path: /"
  const TlsHostKey: LiteralText := "\n  tls:"
                                 + "\n  - hosts:"
                                 + "\n    - "
  const TlsSecretName: LiteralText := "\n    secretName: docker-registry"
                                    + "\n---"
  const IssuerPreamble: LiteralText := "\napiVersion: cert-manager.io/v1"
                                     + "\nkind: Issuer"
                                     + "\nmetadata:"
  const IssuerNameKey: LiteralText := "\n  name: "
  const IssuerNamespaceKey: LiteralText := "\n  namespace: "
  const AcmeEmailKey: LiteralText := "\nspec:"
                                   + "\n  acme:"
                                   + "\n    email: "
  const AcmeServerKey: LiteralText := "\n    server: "
  const PrivateKeySecretKey: LiteralText := "\n    privateKeySecretRef:"
                                          + "\n      name: "
  const Solvers: LiteralText := "\n    solvers:"
                              + "\n    - http01:"
  const SolverClassKey: LiteralText := "\n        ingress:"
                                     + "\n          class: "

  /** The legacy extensions/v1beta1 Ingress and the cert-manager Issuer, as segments. */
  const ExtensionsSegments: Template := [
    /*  0 */ Lit(IngressPreamble + IngressNamespaceKey),
    /*  1 */ Field("Namespace"),
    /*  2 */ Lit(IssuerAnnotationKey),
    /*  3 */ Field("IssuerType"),
    /*  4 */ Lit(ClassAnnotationKey),
    /*  5 */ Field("IngressClass"),
    /*  6 */ Lit(LineBreak),
    /*  7 */ Field("NginxMaxBuffer"),
    /*  8 */ Lit(RuleHostKey),
    /*  9 */ Field("IngressDomain"),
    /* 10 */ Lit(RulePaths + RuleBackend + RulePath + TlsHostKey),
    /* 11 */ Field("IngressDomain"),
    /* 12 */ Lit(TlsSecretName + IssuerPreamble + IssuerNameKey),
    /* 13 */ Field("IssuerType"),
    /* 14 */ Lit(IssuerNamespaceKey),
    /* 15 */ Field("Namespace"),
    /* 16 */ Lit(AcmeEmailKey),
    /* 17 */ Field("CertmanagerEmail"),
    /* 18 */ Lit(AcmeServerKey),
    /* 19 */ Field("IssuerAPI"),
    /* 20 */ Lit(PrivateKeySecretKey),
    /* 21 */ Field("IssuerType"),
    /* 22 */ Lit(Solvers + SolverClassKey),
    /* 23 */ Field("IngressClass")
  ]

  /** The template text itself, as the `{{.Field}}` source string. */
  const RegistryIngressExtensionsYamlTemplate: string := Print(ExtensionsSegments)

  /** The legacy template is in the printable form: literals free of '{', each followed by an action. */
  lemma ExtensionsWellFormed()
    ensures WellFormed(ExtensionsSegments)
  {
    IngressSegmentsWellFormed();
    IssuerSegmentsWellFormed();
  }

  /** The Ingress half of the template (segments 0 to 11) is well formed. */
  lemma IngressSegmentsWellFormed()
    ensures forall i: nat | i < 12 :: WellFormedAt(ExtensionsSegments, i)
  {
    forall i: nat | i < 12 ensures WellFormedAt(ExtensionsSegments, i) {
    }
  }

  /** The Issuer half of the template (segments 12 to 23) is well formed. */
  lemma IssuerSegmentsWellFormed()
    ensures forall i: nat | 12 <= i < 24 :: WellFormedAt(ExtensionsSegments, i)
  {
    forall i: nat | 12 <= i < 24 ensures WellFormedAt(ExtensionsSegments, i) {
    }
  }

  /** Every action of the legacy template names a field of RegInputData, so execution cannot fail. */
  lemma ExtensionsResolve(d: RegInputData)
    ensures Resolves(ExtensionsSegments, Fields(d))
  {
  }

  /** The manifest for a record: the legacy template with every placeholder filled in. */
  function Manifest(d: RegInputData): string {
    ExtensionsResolve(d);
    Substitute(ExtensionsSegments, Fields(d))
  }

  /**
   * Renders the registry Ingress and Issuer for the flag values. The legacy
   * template is used whatever `hasNetworking` says.
   */
  function BuildRegistryYAML(domain: string, email: string, ingressClass: string, namespace: string,
                             maxSize: string, staging: bool, hasNetworking: bool): (r: Result<string, TemplateError>)
    ensures r == Success(Manifest(InputData(domain, email, ingressClass, namespace, maxSize, staging)))
  {
    var tmplString := RegistryIngressExtensionsYamlTemplate;
    ExtensionsWellFormed();
    ParsePrint(ExtensionsSegments);
    match Parse(tmplString)
    case Failure(err) => Failure(err)
    case Success(tmpl) =>
      var inputData := InputData(domain, email, ingressClass, namespace, maxSize, staging);
      ExtensionsResolve(inputData);
      Execute(tmpl, Fields(inputData))
  }

  /** The manifest's text, piece by piece: literal lines alternating with record values. */
  function ManifestPieces(d: RegInputData): seq<string> {
    [ IngressPreamble + IngressNamespaceKey, d.namespace,
      IssuerAnnotationKey, d.issuerType,
      ClassAnnotationKey, d.ingressClass,
      LineBreak, d.nginxMaxBuffer,
      RuleHostKey, d.ingressDomain,
      RulePaths + RuleBackend + RulePath + TlsHostKey, d.ingressDomain,
      TlsSecretName + IssuerPreamble + IssuerNameKey, d.issuerType,
      IssuerNamespaceKey, d.namespace,
      AcmeEmailKey, d.certmanagerEmail,
      AcmeServerKey, d.issuerAPI,
      PrivateKeySecretKey, d.issuerType,
      Solvers + SolverClassKey, d.ingressClass ]
  }

  /**
   * The manifest is the template's literal text with each record value spliced
   * in verbatim at its placeholder, nothing added and nothing escaped.
   */
  lemma ManifestLayout(d: RegInputData)
    ensures Manifest(d) == Concat(ManifestPieces(d))
  {
    var data := Fields(d);
    ExtensionsResolve(d);
    SubstituteIsConcat(ExtensionsSegments, data);
    IngressPieces(d);
    IssuerPieces(d);
    assert Pieces(ExtensionsSegments, data) == ManifestPieces(d);
  }

  /** The Ingress half of the substitution agrees with ManifestPieces. */
  lemma IngressPieces(d: RegInputData)
    ensures Resolves(ExtensionsSegments, Fields(d))
    ensures forall i | 0 <= i < 12 :: Pieces(ExtensionsSegments, Fields(d))[i] == ManifestPieces(d)[i]
  {
    ExtensionsResolve(d);
    FieldValues(d);
  }

  /** The Issuer half of the substitution agrees with ManifestPieces. */
  lemma IssuerPieces(d: RegInputData)
    ensures Resolves(ExtensionsSegments, Fields(d))
    ensures forall i | 12 <= i < 24 :: Pieces(ExtensionsSegments, Fields(d))[i] == ManifestPieces(d)[i]
  {
    ExtensionsResolve(d);
    FieldValues(d);
  }

  // ---------------------------------------------------------------------------
  // Where each value goes. The manifest is Concat(ManifestPieces(d)); piece i is
  // what segment i of the template contributes.
  // ---------------------------------------------------------------------------

  /** The domain fills exactly two placeholders: the rule host and the TLS hosts entry. */
  lemma DomainPlaceholders()
    ensures Placeholders(ExtensionsSegments, "IngressDomain") == {9, 11}
    ensures ExtensionsSegments[8] == Lit(RuleHostKey)
    ensures EndsWith(ExtensionsSegments[10].text, TlsHostKey)
  {
    EndsWithAppend(RulePaths + RuleBackend + RulePath, TlsHostKey);
  }

  /**
   * One issuer name fills the Ingress's cert-manager annotation, the Issuer's
   * name and its private-key secret name.
   */
  lemma IssuerTypePlaceholders()
    ensures Placeholders(ExtensionsSegments, "IssuerType") == {3, 13, 21}
    ensures ExtensionsSegments[2] == Lit(IssuerAnnotationKey)
    ensures EndsWith(ExtensionsSegments[12].text, IssuerNameKey)
    ensures ExtensionsSegments[20] == Lit(PrivateKeySecretKey)
  {
    EndsWithAppend(TlsSecretName + IssuerPreamble, IssuerNameKey);
  }

  /** One namespace fills the metadata of both resources. */
  lemma NamespacePlaceholders()
    ensures Placeholders(ExtensionsSegments, "Namespace") == {1, 15}
    ensures EndsWith(ExtensionsSegments[0].text, IngressNamespaceKey)
    ensures ExtensionsSegments[14] == Lit(IssuerNamespaceKey)
  {
    EndsWithAppend(IngressPreamble, IngressNamespaceKey);
  }

  /** One ingress class fills the Ingress's class annotation and the HTTP-01 solver's class. */
  lemma IngressClassPlaceholders()
    ensures Placeholders(ExtensionsSegments, "IngressClass") == {5, 23}
    ensures ExtensionsSegments[4] == Lit(ClassAnnotationKey)
    ensures EndsWith(ExtensionsSegments[22].text, SolverClassKey)
  {
    EndsWithAppend(Solvers, SolverClassKey);
  }

  /**
   * The email and the ACME server each fill one placeholder, and the optional
   * annotation fills one placeholder standing on a line of its own.
   */
  lemma SinglePlaceholders()
    ensures Placeholders(ExtensionsSegments, "CertmanagerEmail") == {17}
    ensures Placeholders(ExtensionsSegments, "IssuerAPI") == {19}
    ensures Placeholders(ExtensionsSegments, "NginxMaxBuffer") == {7}
    ensures ExtensionsSegments[16] == Lit(AcmeEmailKey) && ExtensionsSegments[18] == Lit(AcmeServerKey)
    ensures ExtensionsSegments[6] == Lit("\n") && RuleHostKey[0] == '\n'
  {
  }

  // ---------------------------------------------------------------------------
  // What the rendered manifest holds, in terms of the flag values.
  // ---------------------------------------------------------------------------

  /** The capability flag is accepted but never read: both values give the same bytes. */
  lemma NetworkingIgnored(domain: string, email: string, ingressClass: string, namespace: string,
                          maxSize: string, staging: bool)
    ensures BuildRegistryYAML(domain, email, ingressClass, namespace, maxSize, staging, true)
         == BuildRegistryYAML(domain, email, ingressClass, namespace, maxSize, staging, false)
  {
  }

  /**
   * The issuer name (in all three places) and the ACME server come as one of the
   * two fixed pairs, chosen by `staging` alone.
   */
  lemma IssuerFollowsStaging(domain: string, email: string, ingressClass: string, namespace: string,
                             maxSize: string, staging: bool)
    ensures var ps := ManifestPieces(InputData(domain, email, ingressClass, namespace, maxSize, staging));
      && ps[3] == ps[13] == ps[21] == (if staging then StagingIssuerType else ProdIssuerType)
      && ps[19] == (if staging then StagingIssuerAPI else ProdIssuerAPI)
  {
  }

  /**
   * The line under the annotations is the proxy-body-size annotation with the
   * configured size for the "nginx" class, and empty for every other class.
   */
  lemma AnnotationOnlyForNginx(domain: string, email: string, ingressClass: string, namespace: string,
                               maxSize: string, staging: bool)
    ensures var ps := ManifestPieces(InputData(domain, email, ingressClass, namespace, maxSize, staging));
      ps[6] + ps[7] + ps[8][..1]
        == if ingressClass == "nginx" then "\n" + ProxyBodySizeAnnotation + maxSize + "\n" else "\n\n"
  {
  }

  /** The flag values reach their placeholders unchanged. */
  lemma FlagsVerbatim(domain: string, email: string, ingressClass: string, namespace: string,
                      maxSize: string, staging: bool)
    ensures var ps := ManifestPieces(InputData(domain, email, ingressClass, namespace, maxSize, staging));
      && ps[9] == ps[11] == domain
      && ps[1] == ps[15] == namespace
      && ps[5] == ps[23] == ingressClass
      && ps[17] == email
  {
  }
}
