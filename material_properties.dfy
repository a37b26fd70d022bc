/**
 * Properties of the default layout and of the override-or-default merge that
 * relate several calls or state what the layout means as a whole.
 */
module MaterialProperties {
  import opened Wrappers
  import opened JavaText
  import opened ConfigProperty
  import opened MaterialSpec

  /**
   * The default file of each piece of material, relative to the certificate
   * directory, as a table: the reference the defaults are checked against.
   */
  function DefaultFileName(cryptoType: int32, f: MaterialField): Option<string>
  {
    if cryptoType == EcdsaType then
      match f
      case CaCert => Some("ca.crt")
      case SdkCert => Some("sdk.crt")
      case SdkPrivateKey => Some("sdk.key")
      case EnSslCert => None
      case EnSslPrivateKey => None
    else if cryptoType == SmType then
      var name := match f
        case CaCert => "gmca.crt"
        case SdkCert => "gmsdk.crt"
        case SdkPrivateKey => "gmsdk.key"
        case EnSslCert => "gmensdk.crt"
        case EnSslPrivateKey => "gmensdk.key";
      Some(SmDir + Separator + name)
    else None
  }

  /** Every default path is the certificate directory joined with the table's file name. */
  lemma DefaultLayout(cryptoType: int32, certPath: Option<string>, f: MaterialField)
    requires IsSupported(cryptoType)
    ensures PathOf(DefaultMaterial(cryptoType, certPath).value, f) ==
      match DefaultFileName(cryptoType, f)
      case Some(name) => Some(Show(certPath) + Separator + name)
      case None => None
  {
    var dir := Show(certPath) + Separator;
    if cryptoType == SmType {
      forall name: string ensures dir + SmDir + Separator + name == dir + (SmDir + Separator + name) {
        assert dir + SmDir + Separator + name == dir + (SmDir + Separator) + name;
      }
    }
  }

  /** Distinct pieces of material never share a default file. */
  lemma DefaultPathsDistinct(cryptoType: int32, certPath: Option<string>, f: MaterialField, g: MaterialField)
    requires IsSupported(cryptoType) && f != g
    requires PathOf(DefaultMaterial(cryptoType, certPath).value, f).Some?
    requires PathOf(DefaultMaterial(cryptoType, certPath).value, g).Some?
    ensures PathOf(DefaultMaterial(cryptoType, certPath).value, f) != PathOf(DefaultMaterial(cryptoType, certPath).value, g)
  {
  }

  /**
   * `certPath` defaults to "conf" and is normalised once; each path field is its
   * normalised configured value when its key is present, and otherwise its default
   * under the normalised `certPath`; its stream is opened on the same value.
   */
  lemma OverrideOrDefault(section: Section, cryptoType: int32, normalize: PathResolver, f: MaterialField)
    requires IsSupported(cryptoType)
    ensures
      var m := Resolve(section, cryptoType, normalize).value;
      var base := if "certPath" in section then Some(section["certPath"]) else Some("conf");
      var value :=
        if f.Key() in section then Some(section[f.Key()])
        else PathOf(DefaultMaterial(cryptoType, m.certPath).value, f);
      && m.certPath == normalize(base)
      && PathOf(m, f) == normalize(value)
      && StreamOf(m, f) == Some(OpenedOn(value))
  {
  }

  /**
   * Configuring one material key changes that field's path and stream and nothing else,
   * whichever scheme is selected (an unsupported one fails in the same way).
   */
  lemma OverrideIsLocal(section: Section, cryptoType: int32, normalize: PathResolver, f: MaterialField, v: string)
    ensures Resolve(section[f.Key() := v], cryptoType, normalize) ==
      match Resolve(section, cryptoType, normalize)
      case Ok(m) => Ok(WithField(m, f, normalize(Some(v)), Some(OpenedOn(Some(v)))))
      case Err(e) => Err(e)
  {
  }

  /** With the defaults fixed, configuring one material key changes only that field's path and stream. */
  lemma MergeOverride(section: Section, cryptoType: int32, normalize: PathResolver, certPath: Option<string>,
                      d: Material, f: MaterialField, v: string)
    ensures Merge(section[f.Key() := v], cryptoType, normalize, certPath, d) ==
      WithField(Merge(section, cryptoType, normalize, certPath, d), f, normalize(Some(v)), Some(OpenedOn(Some(v))))
  {
    assert "cryptoProvider" != f.Key() && "sslKeyIndex" != f.Key() && "enSslKeyIndex" != f.Key();
    forall g: MaterialField, dflt: Option<string> | g != f
      ensures GetValue(section[f.Key() := v], g.Key(), dflt) == GetValue(section, g.Key(), dflt)
    {
      assert g.Key() != f.Key();
    }
  }

  /** The provider and the key indices are looked up without normalisation: "ssm", unset, unset by default. */
  lemma ProviderAndKeyIndices(section: Section, cryptoType: int32, normalize: PathResolver)
    requires IsSupported(cryptoType)
    ensures
      var m := Resolve(section, cryptoType, normalize).value;
      && m.cryptoProvider == (if "cryptoProvider" in section then Some(section["cryptoProvider"]) else Some(SSM))
      && m.sslKeyIndex == (if "sslKeyIndex" in section then Some(section["sslKeyIndex"]) else None)
      && m.enSslKeyIndex == (if "enSslKeyIndex" in section then Some(section["enSslKeyIndex"]) else None)
  {
  }

  /**
   * Under ECDSA the encryption pair has no default: unless configured, both of its
   * fields come from a null value, and their streams are opened on null.
   */
  lemma EcdsaEncryptionPairUnset(section: Section, normalize: PathResolver)
    requires "enSslCert" !in section && "enSslKey" !in section
    ensures
      var m := Resolve(section, EcdsaType, normalize).value;
      && m.enSSLCertPath == normalize(None) && m.enSSLCertInputStream == Some(OpenedOn(None))
      && m.enSSLPrivateKeyPath == normalize(None) && m.enSSLPrivateKeyInputStream == Some(OpenedOn(None))
  {
  }

  /** The message of the scheme error determines the scheme value that was supplied. */
  lemma ErrorIdentifiesScheme(a: int32, p: Option<string>, b: int32, q: Option<string>)
    requires DefaultMaterial(a, p).Err? && DefaultMaterial(b, q).Err?
    requires DefaultMaterial(a, p).error == DefaultMaterial(b, q).error
    ensures a == b
  {
  }

  /** SM with nothing configured and a path resolution that keeps values as they are. */
  lemma SmScenario()
    ensures
      var m := Resolve(map[], SmType, v => v).value;
      && m.certPath == Some("conf")
      && m.caCertPath == Some("conf/gm/gmca.crt")
      && m.sdkCertPath == Some("conf/gm/gmsdk.crt")
      && m.sdkPrivateKeyPath == Some("conf/gm/gmsdk.key")
      && m.enSSLCertPath == Some("conf/gm/gmensdk.crt")
      && m.enSSLPrivateKeyPath == Some("conf/gm/gmensdk.key")
      && m.cryptoProvider == Some("ssm")
  {
    var gm := "conf" + Separator + SmDir + Separator;
    assert gm == "conf/gm/";
    assert gm + "gmca.crt" == "conf/gm/gmca.crt";
    assert gm + "gmsdk.crt" == "conf/gm/gmsdk.crt";
    assert gm + "gmsdk.key" == "conf/gm/gmsdk.key";
    assert gm + "gmensdk.crt" == "conf/gm/gmensdk.crt";
    assert gm + "gmensdk.key" == "conf/gm/gmensdk.key";
  }

  /** ECDSA with only the CA certificate configured: that one field moves, the others keep their defaults. */
  lemma EcdsaOverrideScenario()
    ensures
      var m := Resolve(map["caCert" := "/x/custom-ca.crt"], EcdsaType, v => v).value;
      && m.caCertPath == Some("/x/custom-ca.crt")
      && m.caInputStream == Some(OpenedOn(Some("/x/custom-ca.crt")))
      && m.sdkCertPath == Some("conf/sdk.crt")
      && m.sdkPrivateKeyPath == Some("conf/sdk.key")
  {
    assert "conf" + Separator + "sdk.crt" == "conf/sdk.crt";
    assert "conf" + Separator + "sdk.key" == "conf/sdk.key";
  }
}
