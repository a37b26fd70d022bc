/**
 * The `CryptoMaterialConfig` object: its fields, the constructor that fills them
 * from the configuration, and the setters. A getter is a read of the field.
 */
module MaterialConfig {
  import opened Wrappers
  import opened JavaText
  import opened ConfigProperty
  import opened MaterialSpec

  class CryptoMaterialConfig {
    var certPath: Option<string>
    var caCertPath: Option<string>
    var sdkCertPath: Option<string>
    var sdkPrivateKeyPath: Option<string>
    var enSSLCertPath: Option<string>
    var enSSLPrivateKeyPath: Option<string>
    var cryptoProvider: Option<string>
    var sslKeyIndex: Option<string>
    var enSslKeyIndex: Option<string>
    var caInputStream: Option<Stream>
    var sdkCertInputStream: Option<Stream>
    var sdkPrivateKeyInputStream: Option<Stream>
    var enSSLCertInputStream: Option<Stream>
    var enSSLPrivateKeyInputStream: Option<Stream>
    var sslCryptoType: int32

    /** All fields of the object as one value. */
    function View(): Material
      reads this
    {
      Material(
        certPath, caCertPath, sdkCertPath, sdkPrivateKeyPath, enSSLCertPath, enSSLPrivateKeyPath,
        cryptoProvider, sslKeyIndex, enSslKeyIndex,
        caInputStream, sdkCertInputStream, sdkPrivateKeyInputStream,
        enSSLCertInputStream, enSSLPrivateKeyInputStream, sslCryptoType)
    }

    /** The no-argument constructor: every field holds its initialiser, or null, or 0. */
    constructor ()
      ensures View() == Initial
    {
      certPath := Some("conf");
      caCertPath, sdkCertPath, sdkPrivateKeyPath := None, None, None;
      enSSLCertPath, enSSLPrivateKeyPath := None, None;
      cryptoProvider := Some("ssm");
      sslKeyIndex, enSslKeyIndex := None, None;
      caInputStream, sdkCertInputStream, sdkPrivateKeyInputStream := None, None, None;
      enSSLCertInputStream, enSSLPrivateKeyInputStream := None, None;
      sslCryptoType := 0;
    }

    /**
     * The constructor `CryptoMaterialConfig(configProperty, cryptoType)`, reading the
     * crypto-material section `section`. It either yields a new object whose fields are
     * those `Resolve` describes, having opened exactly the five material streams in field
     * order, or throws the scheme error before opening any stream.
     */
    static method Load(section: Section, cryptoType: int32, normalize: PathResolver, opener: StreamOpener)
      returns (r: Result<CryptoMaterialConfig, ConfigError>)
      modifies opener
      ensures r.Ok? <==> IsSupported(cryptoType)
      ensures r.Err? ==>
        && r.error == Resolve(section, cryptoType, normalize).error
        && opener.arguments == old(opener.arguments)
      ensures r.Ok? ==>
        && fresh(r.value)
        && r.value.View() == Resolve(section, cryptoType, normalize).value
        && opener.arguments == old(opener.arguments) + OpenedSources(r.value.View())
    {
      var c := new CryptoMaterialConfig();
      c.sslCryptoType := cryptoType;
      c.certPath := normalize(GetValue(section, "certPath", c.certPath));
      var defaults := DefaultMaterial(cryptoType, c.certPath);
      if defaults.Err? {
        return Err(defaults.error);
      }
      ResolveIsMerge(section, cryptoType, normalize, c.certPath);
      c.MergeWithDefaults(section, normalize, defaults.value, opener);
      r := Ok(c);
    }

    /**
     * Everything the constructor does once the defaults `d` are known: the paths,
     * then the streams, then the provider settings.
     */
    method MergeWithDefaults(section: Section, normalize: PathResolver, d: Material, opener: StreamOpener)
      modifies this, opener
      ensures View() == Merge(section, old(sslCryptoType), normalize, old(certPath), d)
      ensures opener.arguments == old(opener.arguments) + OpenedSources(View())
    {
      MergePaths(section, normalize, d);
      OpenStreams(section, d, opener);
      MergeProviderSettings(section, d);
    }

    /** The five path fields: configured value or default, normalised. */
    method MergePaths(section: Section, normalize: PathResolver, d: Material)
      modifies this
      ensures View() == old(View()).(
        caCertPath := normalize(GetValue(section, CaCert.Key(), d.caCertPath)),
        sdkCertPath := normalize(GetValue(section, SdkCert.Key(), d.sdkCertPath)),
        sdkPrivateKeyPath := normalize(GetValue(section, SdkPrivateKey.Key(), d.sdkPrivateKeyPath)),
        enSSLCertPath := normalize(GetValue(section, EnSslCert.Key(), d.enSSLCertPath)),
        enSSLPrivateKeyPath := normalize(GetValue(section, EnSslPrivateKey.Key(), d.enSSLPrivateKeyPath)))
    {
      var ca := GetValue(section, CaCert.Key(), d.caCertPath);
      caCertPath := normalize(ca);
      var sdkCert := GetValue(section, SdkCert.Key(), d.sdkCertPath);
      sdkCertPath := normalize(sdkCert);
      var sdkKey := GetValue(section, SdkPrivateKey.Key(), d.sdkPrivateKeyPath);
      sdkPrivateKeyPath := normalize(sdkKey);
      var enCert := GetValue(section, EnSslCert.Key(), d.enSSLCertPath);
      enSSLCertPath := normalize(enCert);
      var enKey := GetValue(section, EnSslPrivateKey.Key(), d.enSSLPrivateKeyPath);
      enSSLPrivateKeyPath := normalize(enKey);
    }

    /** The five streams, opened in field order on the same lookups that fed the paths. */
    method OpenStreams(section: Section, d: Material, opener: StreamOpener)
      modifies this, opener
      ensures
        var ca := GetValue(section, CaCert.Key(), d.caCertPath);
        var sdkCert := GetValue(section, SdkCert.Key(), d.sdkCertPath);
        var sdkKey := GetValue(section, SdkPrivateKey.Key(), d.sdkPrivateKeyPath);
        var enCert := GetValue(section, EnSslCert.Key(), d.enSSLCertPath);
        var enKey := GetValue(section, EnSslPrivateKey.Key(), d.enSSLPrivateKeyPath);
        && View() == old(View()).(
             caInputStream := Some(OpenedOn(ca)),
             sdkCertInputStream := Some(OpenedOn(sdkCert)),
             sdkPrivateKeyInputStream := Some(OpenedOn(sdkKey)),
             enSSLCertInputStream := Some(OpenedOn(enCert)),
             enSSLPrivateKeyInputStream := Some(OpenedOn(enKey)))
        && opener.arguments == old(opener.arguments) + [ca, sdkCert, sdkKey, enCert, enKey]
    {
      var s := opener.Open(GetValue(section, CaCert.Key(), d.caCertPath));
      caInputStream := Some(s);
      s := opener.Open(GetValue(section, SdkCert.Key(), d.sdkCertPath));
      sdkCertInputStream := Some(s);
      s := opener.Open(GetValue(section, SdkPrivateKey.Key(), d.sdkPrivateKeyPath));
      sdkPrivateKeyInputStream := Some(s);
      s := opener.Open(GetValue(section, EnSslCert.Key(), d.enSSLCertPath));
      enSSLCertInputStream := Some(s);
      s := opener.Open(GetValue(section, EnSslPrivateKey.Key(), d.enSSLPrivateKeyPath));
      enSSLPrivateKeyInputStream := Some(s);
    }

    /** The provider and the two key indices: configured value or default, not normalised. */
    method MergeProviderSettings(section: Section, d: Material)
      modifies this
      ensures View() == old(View()).(
        cryptoProvider := GetValue(section, "cryptoProvider", d.cryptoProvider),
        sslKeyIndex := GetValue(section, "sslKeyIndex", d.sslKeyIndex),
        enSslKeyIndex := GetValue(section, "enSslKeyIndex", d.enSslKeyIndex))
    {
      cryptoProvider := GetValue(section, "cryptoProvider", d.cryptoProvider);
      sslKeyIndex := GetValue(section, "sslKeyIndex", d.sslKeyIndex);
      enSslKeyIndex := GetValue(section, "enSslKeyIndex", d.enSslKeyIndex);
    }

    method SetCertPath(certPath: Option<string>)
      modifies this
      ensures View() == old(View()).(certPath := certPath)
    {
      this.certPath := certPath;
    }

    method SetCaCertPath(caCertPath: Option<string>)
      modifies this
      ensures View() == old(View()).(caCertPath := caCertPath)
    {
      this.caCertPath := caCertPath;
    }

    method SetSdkCertPath(sdkCertPath: Option<string>)
      modifies this
      ensures View() == old(View()).(sdkCertPath := sdkCertPath)
    {
      this.sdkCertPath := sdkCertPath;
    }

    method SetSdkPrivateKeyPath(sdkPrivateKeyPath: Option<string>)
      modifies this
      ensures View() == old(View()).(sdkPrivateKeyPath := sdkPrivateKeyPath)
    {
      this.sdkPrivateKeyPath := sdkPrivateKeyPath;
    }

    method SetEnSSLCertPath(enSSLCertPath: Option<string>)
      modifies this
      ensures View() == old(View()).(enSSLCertPath := enSSLCertPath)
    {
      this.enSSLCertPath := enSSLCertPath;
    }

    method SetEnSSLPrivateKeyPath(enSSLPrivateKeyPath: Option<string>)
      modifies this
      ensures View() == old(View()).(enSSLPrivateKeyPath := enSSLPrivateKeyPath)
    {
      this.enSSLPrivateKeyPath := enSSLPrivateKeyPath;
    }

    method SetSslCryptoType(sslCryptoType: int32)
      modifies this
      ensures View() == old(View()).(sslCryptoType := sslCryptoType)
    {
      this.sslCryptoType := sslCryptoType;
    }

    method SetCaInputStream(caInputStream: Option<Stream>)
      modifies this
      ensures View() == old(View()).(caInputStream := caInputStream)
    {
      this.caInputStream := caInputStream;
    }

    method SetSdkCertInputStream(sdkCertInputStream: Option<Stream>)
      modifies this
      ensures View() == old(View()).(sdkCertInputStream := sdkCertInputStream)
    {
      this.sdkCertInputStream := sdkCertInputStream;
    }

    method SetSdkPrivateKeyInputStream(sdkPrivateKeyInputStream: Option<Stream>)
      modifies this
      ensures View() == old(View()).(sdkPrivateKeyInputStream := sdkPrivateKeyInputStream)
    {
      this.sdkPrivateKeyInputStream := sdkPrivateKeyInputStream;
    }

    method SetEnSSLCertInputStream(enSSLCertInputStream: Option<Stream>)
      modifies this
      ensures View() == old(View()).(enSSLCertInputStream := enSSLCertInputStream)
    {
      this.enSSLCertInputStream := enSSLCertInputStream;
    }

    method SetEnSSLPrivateKeyInputStream(enSSLPrivateKeyInputStream: Option<Stream>)
      modifies this
      ensures View() == old(View()).(enSSLPrivateKeyInputStream := enSSLPrivateKeyInputStream)
    {
      this.enSSLPrivateKeyInputStream := enSSLPrivateKeyInputStream;
    }

    method SetCryptoProvider(cryptoProvider: Option<string>)
      modifies this
      ensures View() == old(View()).(cryptoProvider := cryptoProvider)
    {
      this.cryptoProvider := cryptoProvider;
    }

    method SetSslKeyIndex(sslKeyIndex: Option<string>)
      modifies this
      ensures View() == old(View()).(sslKeyIndex := sslKeyIndex)
    {
      this.sslKeyIndex := sslKeyIndex;
    }

    method SetEnSslKeyIndex(enSslKeyIndex: Option<string>)
      modifies this
      ensures View() == old(View()).(enSslKeyIndex := enSslKeyIndex)
    {
      this.enSslKeyIndex := enSslKeyIndex;
    }
  }
}
