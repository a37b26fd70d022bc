/**
 * The state of a `CryptoMaterialConfig` as a value, the default layout of the
 * certificate and key files per crypto scheme (`getDefaultCaCertPath`), and the
 * override-or-default merge the constructor performs.
 */
module MaterialSpec {
  import opened Wrappers
  import opened JavaText
  import opened ConfigProperty

  /** A Java `int`. */
  newtype int32 = x: int | -0x8000_0000 <= x < 0x8000_0000

  /** `CryptoType.ECDSA_TYPE` and `CryptoType.SM_TYPE` ("expected 0 or 1"). */
  const EcdsaType: int32 := 0
  const SmType: int32 := 1

  /** `CryptoProviderType.SSM`, the software security module. */
  const SSM := "ssm"

  /** `File.separator`, fixed to one platform. */
  const Separator := "/"

  /** The sub-directory holding the SM (national cryptography) material. */
  const SmDir := "gm"

  const InvalidSchemePrefix :=
    "load CryptoMaterialConfig failed, only support ecdsa and sm now, expected 0 or 1, but provided "

  predicate IsSupported(cryptoType: int32)
  {
    cryptoType == EcdsaType || cryptoType == SmType
  }

  /** `ConfigException`. */
  datatype ConfigError = InvalidScheme(message: string)

  /**
   * Every field of a `CryptoMaterialConfig`; a null reference is `None`. A stream field
   * that has been assigned holds `Some(OpenedOn(x))`, whatever opening `x` produced.
   */
  datatype Material = Material(
    certPath: Option<string>,
    caCertPath: Option<string>,
    sdkCertPath: Option<string>,
    sdkPrivateKeyPath: Option<string>,
    enSSLCertPath: Option<string>,
    enSSLPrivateKeyPath: Option<string>,
    cryptoProvider: Option<string>,
    sslKeyIndex: Option<string>,
    enSslKeyIndex: Option<string>,
    caInputStream: Option<Stream>,
    sdkCertInputStream: Option<Stream>,
    sdkPrivateKeyInputStream: Option<Stream>,
    enSSLCertInputStream: Option<Stream>,
    enSSLPrivateKeyInputStream: Option<Stream>,
    sslCryptoType: int32)

  /** The fields of a freshly allocated object: their Java initialisers, else null or 0. */
  const Initial := Material(
    Some("conf"), None, None, None, None, None, Some("ssm"), None, None,
    None, None, None, None, None, 0)

  /** The five pieces of material, each with a path field, a stream field and a configuration key. */
  datatype MaterialField = CaCert | SdkCert | SdkPrivateKey | EnSslCert | EnSslPrivateKey
  {
    /** The key of the crypto-material section that overrides this field's default. */
    function Key(): string
    {
      match this
      case CaCert => "caCert"
      case SdkCert => "sslCert"
      case SdkPrivateKey => "sslKey"
      case EnSslCert => "enSslCert"
      case EnSslPrivateKey => "enSslKey"
    }
  }

  function PathOf(m: Material, f: MaterialField): Option<string>
  {
    match f
    case CaCert => m.caCertPath
    case SdkCert => m.sdkCertPath
    case SdkPrivateKey => m.sdkPrivateKeyPath
    case EnSslCert => m.enSSLCertPath
    case EnSslPrivateKey => m.enSSLPrivateKeyPath
  }

  function StreamOf(m: Material, f: MaterialField): Option<Stream>
  {
    match f
    case CaCert => m.caInputStream
    case SdkCert => m.sdkCertInputStream
    case SdkPrivateKey => m.sdkPrivateKeyInputStream
    case EnSslCert => m.enSSLCertInputStream
    case EnSslPrivateKey => m.enSSLPrivateKeyInputStream
  }

  /** `m` with the path and stream fields of `f` replaced. */
  function WithField(m: Material, f: MaterialField, path: Option<string>, stream: Option<Stream>): Material
  {
    match f
    case CaCert => m.(caCertPath := path, caInputStream := stream)
    case SdkCert => m.(sdkCertPath := path, sdkCertInputStream := stream)
    case SdkPrivateKey => m.(sdkPrivateKeyPath := path, sdkPrivateKeyInputStream := stream)
    case EnSslCert => m.(enSSLCertPath := path, enSSLCertInputStream := stream)
    case EnSslPrivateKey => m.(enSSLPrivateKeyPath := path, enSSLPrivateKeyInputStream := stream)
  }

  /**
   * Every stream field holds the result of opening the very value that, normalised,
   * gives its path field.
   */
  predicate StreamsMatchPaths(m: Material, normalize: PathResolver)
  {
    forall f: MaterialField ::
      StreamOf(m, f).Some? && PathOf(m, f) == normalize(StreamOf(m, f).value.source)
  }

  /**
   * `getDefaultCaCertPath(cryptoType, certPath)`: a fresh object holding the default
   * layout under `certPath` for the scheme, or the `ConfigException` for any other scheme.
   */
  function DefaultMaterial(cryptoType: int32, certPath: Option<string>): (r: Result<Material, ConfigError>)
    ensures r.Ok? <==> IsSupported(cryptoType)
    ensures r.Err? ==> EndsWith(r.error.message, IntToString(cryptoType as int))
    ensures r.Ok? ==>
      && r.value.certPath == certPath
      && r.value.cryptoProvider == Some(SSM)
      && r.value.sslKeyIndex == None && r.value.enSslKeyIndex == None
      && (forall f :: StreamOf(r.value, f) == None)
      && (forall f :: PathOf(r.value, f).Some? ==>
            StartsWith(PathOf(r.value, f).value, Show(certPath) + Separator))
    ensures cryptoType == EcdsaType ==>
      && r.value.caCertPath.Some? && r.value.sdkCertPath.Some? && r.value.sdkPrivateKeyPath.Some?
      && r.value.enSSLCertPath == None && r.value.enSSLPrivateKeyPath == None
    ensures cryptoType == SmType ==>
      forall f :: PathOf(r.value, f).Some? &&
        StartsWith(PathOf(r.value, f).value, Show(certPath) + Separator + SmDir + Separator)
  {
    var blank := Initial.(certPath := certPath);
    var dir := Show(certPath) + Separator;
    if cryptoType == EcdsaType then
      Ok(blank.(
        caCertPath := Some(dir + "ca.crt"),
        sdkCertPath := Some(dir + "sdk.crt"),
        sdkPrivateKeyPath := Some(dir + "sdk.key"),
        cryptoProvider := Some(SSM)))
    else if cryptoType == SmType then
      var gm := dir + SmDir + Separator;
      assert StartsWith(gm, dir);
      Ok(blank.(
        caCertPath := Some(gm + "gmca.crt"),
        sdkCertPath := Some(gm + "gmsdk.crt"),
        sdkPrivateKeyPath := Some(gm + "gmsdk.key"),
        enSSLCertPath := Some(gm + "gmensdk.crt"),
        enSSLPrivateKeyPath := Some(gm + "gmensdk.key"),
        cryptoProvider := Some(SSM)))
    else
      Err(InvalidScheme(InvalidSchemePrefix + IntToString(cryptoType as int)))
  }

  /**
   * What the constructor `CryptoMaterialConfig(configProperty, cryptoType)` leaves in the
   * object, or the exception it throws: `certPath` is resolved first, the defaults are
   * derived from the resolved value, and every other field takes its configured value
   * when its key is present and the default otherwise.
   */
  function Resolve(section: Section, cryptoType: int32, normalize: PathResolver): (r: Result<Material, ConfigError>)
    ensures r.Ok? <==> IsSupported(cryptoType)
    ensures r.Err? ==> EndsWith(r.error.message, IntToString(cryptoType as int))
    ensures r.Ok? ==> r.value.sslCryptoType == cryptoType && StreamsMatchPaths(r.value, normalize)
  {
    var certPath := normalize(GetValue(section, "certPath", Initial.certPath));
    match DefaultMaterial(cryptoType, certPath)
    case Err(e) => Err(e)
    case Ok(d) => Ok(Merge(section, cryptoType, normalize, certPath, d))
  }

  /**
   * The object the constructor builds once the defaults `d` under the resolved
   * `certPath` are known: every field takes its configured value or its default.
   */
  function Merge(section: Section, cryptoType: int32, normalize: PathResolver, certPath: Option<string>, d: Material): Material
  {
    var ca := GetValue(section, CaCert.Key(), d.caCertPath);
    var sdkCert := GetValue(section, SdkCert.Key(), d.sdkCertPath);
    var sdkKey := GetValue(section, SdkPrivateKey.Key(), d.sdkPrivateKeyPath);
    var enCert := GetValue(section, EnSslCert.Key(), d.enSSLCertPath);
    var enKey := GetValue(section, EnSslPrivateKey.Key(), d.enSSLPrivateKeyPath);
    Initial.(
      sslCryptoType := cryptoType,
      certPath := certPath,
      caCertPath := normalize(ca),
      sdkCertPath := normalize(sdkCert),
      sdkPrivateKeyPath := normalize(sdkKey),
      enSSLCertPath := normalize(enCert),
      enSSLPrivateKeyPath := normalize(enKey),
      caInputStream := Some(OpenedOn(ca)),
      sdkCertInputStream := Some(OpenedOn(sdkCert)),
      sdkPrivateKeyInputStream := Some(OpenedOn(sdkKey)),
      enSSLCertInputStream := Some(OpenedOn(enCert)),
      enSSLPrivateKeyInputStream := Some(OpenedOn(enKey)),
      cryptoProvider := GetValue(section, "cryptoProvider", d.cryptoProvider),
      sslKeyIndex := GetValue(section, "sslKeyIndex", d.sslKeyIndex),
      enSslKeyIndex := GetValue(section, "enSslKeyIndex", d.enSslKeyIndex))
  }

  /** Once the defaults are known, `Resolve` is the merge with them. */
  lemma ResolveIsMerge(section: Section, cryptoType: int32, normalize: PathResolver, certPath: Option<string>)
    requires certPath == normalize(GetValue(section, "certPath", Initial.certPath))
    requires DefaultMaterial(cryptoType, certPath).Ok?
    ensures Resolve(section, cryptoType, normalize) ==
      Ok(Merge(section, cryptoType, normalize, certPath, DefaultMaterial(cryptoType, certPath).value))
  {
  }

  /** The arguments the constructor opens streams on, in the order it opens them. */
  function OpenedSources(m: Material): seq<Option<string>>
    requires forall f :: StreamOf(m, f).Some?
  {
    [ StreamOf(m, CaCert).value.source, StreamOf(m, SdkCert).value.source,
      StreamOf(m, SdkPrivateKey).value.source, StreamOf(m, EnSslCert).value.source,
      StreamOf(m, EnSslPrivateKey).value.source ]
  }
}
