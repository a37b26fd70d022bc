# CryptoMaterialConfig, modelled in Dafny

A model of the FISCO BCOS Java SDK's `CryptoMaterialConfig`: the object that works
out where the TLS material lives — the CA certificate, the SDK certificate and
private key and, for the SM (national cryptography) scheme, a second "encryption"
certificate and key — and opens an input stream on each.

- `wrappers.dfy` — `Option` (a Java reference that may be null) and `Result`
  (a value or a thrown exception).
- `java_text.dfy` — the Java string semantics the class relies on: how `+` renders
  a null String (`Show`) and an `int` (`IntToString`, proved against a decimal parser).
- `config_property.dfy` — the `ConfigProperty` collaborators: the crypto-material
  section as a map, `getValue` as lookup with a default, `getConfigFilePath` as a
  path-resolver parameter about which nothing is assumed, and `getConfigInputStream`
  as a `StreamOpener` that records every argument it is given.
- `material_spec.dfy` — the object's fields as a value (`Material`), the default layout
  per scheme (`DefaultMaterial`, from `getDefaultCaCertPath`) and the
  override-or-default merge of the constructor as a function (`Resolve`).
- `material_config.dfy` — the class itself: its fields, the no-argument constructor,
  the configuring constructor (`Load`, proved equal to `Resolve`, including the order
  in which streams are opened) and every setter, each proved to change its own field only.
- `material_properties.dfy` — lemmas: the layout against a table of file names, distinct
  defaults, override precedence, locality of an override, provider and key indices, the
  error message identifying the scheme, and two concrete scenarios.

Constants: the values of `CryptoType.ECDSA_TYPE` (0), `CryptoType.SM_TYPE` (1),
`CryptoProviderType.SSM` ("ssm") and `File.separator` ("/") are a modelling choice: the
first two agree with the exception text "expected 0 or 1", and "ssm" is the literal that
initialises `cryptoProvider`. The general lemmas refer to the constants by name; the two
scenarios, `SmScenario` and `EcdsaOverrideScenario`, spell paths with "/" and the
provider as "ssm", and so depend on these values.

Behaviour of the source the model keeps:
- Under ECDSA the encryption pair has no default; the constructor still passes the null
  lookup result to `getConfigFilePath` and to `getConfigInputStream` (lines 78-89 and
  109-120), and the model records that (`EcdsaEncryptionPairUnset`).
- `getDefaultCaCertPath` does not check `certPath`; a null one is rendered "null" by
  Java's concatenation, and the model does the same.

## Model

| member | source | states |
|---|---|---|
| JavaText.IntToString | sdk-core/src/main/java/org/fisco/bcos/sdk/config/model/CryptoMaterialConfig.java:169-171 | the text appended for the scheme value is a decimal literal that parses back to that value, starts with '-' exactly when the value is negative, and has no leading zero (so never "-0" or "007") |
| JavaText.Digits | sdk-core/src/main/java/org/fisco/bcos/sdk/config/model/CryptoMaterialConfig.java:169-171 | the digits of a natural number are non-empty, all decimal, parse back to it, and have no leading zero unless the number is 0 |
| MaterialSpec.DefaultMaterial | sdk-core/src/main/java/org/fisco/bcos/sdk/config/model/CryptoMaterialConfig.java:146-174 | succeeds exactly for ECDSA and SM, else a ConfigException whose message ends with the supplied value; keeps certPath, provider SSM, key indices and streams unset; every default path starts with certPath + separator; ECDSA sets the three signing paths and leaves the encryption pair unset; SM sets all five under certPath/gm/ |
| MaterialSpec.Resolve | sdk-core/src/main/java/org/fisco/bcos/sdk/config/model/CryptoMaterialConfig.java:51-135 | fails exactly for an unsupported scheme, with the message naming it; otherwise records the scheme and opens every stream on the very value whose normalisation is the matching path |
| MaterialConfig.CryptoMaterialConfig.constructor | sdk-core/src/main/java/org/fisco/bcos/sdk/config/model/CryptoMaterialConfig.java:31-49 | a new object holds certPath "conf", provider "ssm", scheme 0 and null everywhere else |
| MaterialConfig.CryptoMaterialConfig.Load | sdk-core/src/main/java/org/fisco/bcos/sdk/config/model/CryptoMaterialConfig.java:51-144 | throws exactly for an unsupported scheme, before any stream is opened; otherwise a fresh object whose fields are those of Resolve, having opened the five streams in field order and no others |
| MaterialConfig.CryptoMaterialConfig.MergeWithDefaults | sdk-core/src/main/java/org/fisco/bcos/sdk/config/model/CryptoMaterialConfig.java:60-135 | once the defaults are known, the object holds the merge of configured values and defaults, and the five streams were opened in field order |
| MaterialConfig.CryptoMaterialConfig.MergePaths | sdk-core/src/main/java/org/fisco/bcos/sdk/config/model/CryptoMaterialConfig.java:60-89 | each of the five path fields becomes the normalised configured value or default; nothing else changes |
| MaterialConfig.CryptoMaterialConfig.OpenStreams | sdk-core/src/main/java/org/fisco/bcos/sdk/config/model/CryptoMaterialConfig.java:90-120 | each stream is opened on the same lookup that fed its path, in field order; nothing else changes |
| MaterialConfig.CryptoMaterialConfig.MergeProviderSettings | sdk-core/src/main/java/org/fisco/bcos/sdk/config/model/CryptoMaterialConfig.java:121-135 | provider and key indices take configured value or default, without normalisation; nothing else changes |
| MaterialConfig.CryptoMaterialConfig.SetCertPath | sdk-core/src/main/java/org/fisco/bcos/sdk/config/model/CryptoMaterialConfig.java:180-182 | only certPath changes, to the given value |
| MaterialConfig.CryptoMaterialConfig.SetCaCertPath | sdk-core/src/main/java/org/fisco/bcos/sdk/config/model/CryptoMaterialConfig.java:188-190 | only caCertPath changes, to the given value |
| MaterialConfig.CryptoMaterialConfig.SetSdkCertPath | sdk-core/src/main/java/org/fisco/bcos/sdk/config/model/CryptoMaterialConfig.java:196-198 | only sdkCertPath changes, to the given value |
| MaterialConfig.CryptoMaterialConfig.SetSdkPrivateKeyPath | sdk-core/src/main/java/org/fisco/bcos/sdk/config/model/CryptoMaterialConfig.java:204-206 | only sdkPrivateKeyPath changes, to the given value |
| MaterialConfig.CryptoMaterialConfig.SetEnSSLCertPath | sdk-core/src/main/java/org/fisco/bcos/sdk/config/model/CryptoMaterialConfig.java:212-214 | only enSSLCertPath changes, to the given value |
| MaterialConfig.CryptoMaterialConfig.SetEnSSLPrivateKeyPath | sdk-core/src/main/java/org/fisco/bcos/sdk/config/model/CryptoMaterialConfig.java:220-222 | only enSSLPrivateKeyPath changes, to the given value |
| MaterialConfig.CryptoMaterialConfig.SetSslCryptoType | sdk-core/src/main/java/org/fisco/bcos/sdk/config/model/CryptoMaterialConfig.java:228-230 | only sslCryptoType changes, to the given value |
| MaterialConfig.CryptoMaterialConfig.SetCaInputStream | sdk-core/src/main/java/org/fisco/bcos/sdk/config/model/CryptoMaterialConfig.java:236-238 | only caInputStream changes, to the given value |
| MaterialConfig.CryptoMaterialConfig.SetSdkCertInputStream | sdk-core/src/main/java/org/fisco/bcos/sdk/config/model/CryptoMaterialConfig.java:244-246 | only sdkCertInputStream changes, to the given value |
| MaterialConfig.CryptoMaterialConfig.SetSdkPrivateKeyInputStream | sdk-core/src/main/java/org/fisco/bcos/sdk/config/model/CryptoMaterialConfig.java:252-254 | only sdkPrivateKeyInputStream changes, to the given value |
| MaterialConfig.CryptoMaterialConfig.SetEnSSLCertInputStream | sdk-core/src/main/java/org/fisco/bcos/sdk/config/model/CryptoMaterialConfig.java:260-262 | only enSSLCertInputStream changes, to the given value |
| MaterialConfig.CryptoMaterialConfig.SetEnSSLPrivateKeyInputStream | sdk-core/src/main/java/org/fisco/bcos/sdk/config/model/CryptoMaterialConfig.java:268-270 | only enSSLPrivateKeyInputStream changes, to the given value |
| MaterialConfig.CryptoMaterialConfig.SetCryptoProvider | sdk-core/src/main/java/org/fisco/bcos/sdk/config/model/CryptoMaterialConfig.java:276-278 | only cryptoProvider changes, to the given value |
| MaterialConfig.CryptoMaterialConfig.SetSslKeyIndex | sdk-core/src/main/java/org/fisco/bcos/sdk/config/model/CryptoMaterialConfig.java:284-286 | only sslKeyIndex changes, to the given value |
| MaterialConfig.CryptoMaterialConfig.SetEnSslKeyIndex | sdk-core/src/main/java/org/fisco/bcos/sdk/config/model/CryptoMaterialConfig.java:292-294 | only enSslKeyIndex changes, to the given value |
| MaterialProperties.DefaultLayout | sdk-core/src/main/java/org/fisco/bcos/sdk/config/model/CryptoMaterialConfig.java:150-167 | every default path is certPath + separator + its file name from the per-scheme table (ca.crt, sdk.crt, sdk.key; gm/gmca.crt … gm/gmensdk.key), and unset where the table has none |
| MaterialProperties.DefaultPathsDistinct | sdk-core/src/main/java/org/fisco/bcos/sdk/config/model/CryptoMaterialConfig.java:150-167 | no two pieces of material share a default path |
| MaterialProperties.OverrideOrDefault | sdk-core/src/main/java/org/fisco/bcos/sdk/config/model/CryptoMaterialConfig.java:55-120 | certPath is the normalised configured value or "conf"; each path field is the normalised configured value when its key is present, else its default under the resolved certPath; its stream is opened on that same value |
| MaterialProperties.OverrideIsLocal | sdk-core/src/main/java/org/fisco/bcos/sdk/config/model/CryptoMaterialConfig.java:60-135 | configuring one material key changes that field's path and stream and no other field, for every scheme |
| MaterialProperties.MergeOverride | sdk-core/src/main/java/org/fisco/bcos/sdk/config/model/CryptoMaterialConfig.java:60-135 | with the defaults fixed, configuring one material key changes only that field's path and stream |
| MaterialProperties.ProviderAndKeyIndices | sdk-core/src/main/java/org/fisco/bcos/sdk/config/model/CryptoMaterialConfig.java:121-135 | provider defaults to SSM, both key indices to unset, each overridden only by its own key, never normalised |
| MaterialProperties.EcdsaEncryptionPairUnset | sdk-core/src/main/java/org/fisco/bcos/sdk/config/model/CryptoMaterialConfig.java:78-120 | under ECDSA with the pair unconfigured, both encryption paths are the resolution of null and both streams are opened on null |
| MaterialProperties.ErrorIdentifiesScheme | sdk-core/src/main/java/org/fisco/bcos/sdk/config/model/CryptoMaterialConfig.java:168-172 | two scheme errors with the same message were raised for the same scheme value |
| MaterialProperties.SmScenario | sdk-core/src/main/java/org/fisco/bcos/sdk/config/model/CryptoMaterialConfig.java:156-167 | SM, nothing configured, identity resolution: conf/gm/gmca.crt, conf/gm/gmsdk.crt, conf/gm/gmsdk.key, conf/gm/gmensdk.crt, conf/gm/gmensdk.key, provider ssm |
| MaterialProperties.EcdsaOverrideScenario | sdk-core/src/main/java/org/fisco/bcos/sdk/config/model/CryptoMaterialConfig.java:60-77 | ECDSA with only caCert configured: the CA path and stream follow it while sdk.crt and sdk.key stay at conf/ |

## Left out

- Getters (lines 176-294, the `get` methods): a getter is a read of the Dafny field of the same name.
- `toString` (lines 296-320): a debug rendering with no behaviour the model relies on.
- Logging (lines 137-143): no behaviour.
- `ConfigProperty.getConfigFilePath` is a parameter of type `Option<string> -> Option<string>`: nothing is assumed about canonicalisation or about what it does with null.
- `ConfigProperty.getConfigInputStream` is file I/O: only its argument is recorded; whether the file exists or can be read, and the failure that follows, are not modelled.
- `Stream`: a stream field holding `Some(OpenedOn(x))` means only that the field was assigned whatever `getConfigInputStream(x)` returned; the model does not say whether that result is null, in particular for the null argument passed under ECDSA.
- `ConfigProperty.getValue` is modelled as a lookup in a string-to-string map with a fallback; conversion of non-string configuration values and a null crypto-material section are not modelled.
- `File.separator` is fixed to "/" rather than depending on the platform.
- Load: the Java constructor cannot be a Dafny constructor because it throws, so it is a static method returning a `Result`; the partly built object is discarded on the error path, as in Java.
- MergeWithDefaults, MergePaths, OpenStreams, MergeProviderSettings: the constructor body is split along its three blocks of assignments; the order of all field writes and stream openings is that of the source.
