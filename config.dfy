/** The service configuration: an immutable value object with defaulting rules applied once. */
module Config {
  import opened Wrappers

  /** What every fallback WSDL path ends with. */
  const BUNDLED_WSDL_SUFFIX: string := "/docs/aeat/SistemaFacturacion.wsdl.xml"

  /** Where the bundled AEAT WSDL sits, relative to the directory of the configuration class. */
  const BUNDLED_WSDL_PATH: string := "/../.." + BUNDLED_WSDL_SUFFIX

  /** The four values the configuration holds; nothing changes them after construction. */
  datatype VerifactuConfig = VerifactuConfig(wsdl: string, certPath: string, certPassword: string, qrValidationUrl: string)
  {
    function GetWsdl(): (r: string)
      ensures r == wsdl
    {
      wsdl
    }

    function GetCertPath(): (r: string)
      ensures r == certPath
    {
      certPath
    }

    function GetCertPassword(): (r: string)
      ensures r == certPassword
    {
      certPassword
    }

    function GetQrValidationUrl(): (r: string)
      ensures r == qrValidationUrl
    {
      qrValidationUrl
    }
  }

  /** PHP truthiness of a nullable string: null, '' and '0' are false. */
  predicate Truthy(s: Option<string>) {
    s.Some? && s.value != "" && s.value != "0"
  }

  predicate EndsWith(s: string, suffix: string) {
    |suffix| <= |s| && s[|s| - |suffix|..] == suffix
  }

  lemma EndsWithAppended(prefix: string, suffix: string)
    ensures EndsWith(prefix + suffix, suffix)
  {
    assert (prefix + suffix)[|prefix|..] == suffix;
  }

  /**
   * The constructor. `dir` is the directory of the configuration class (`__DIR__`): a falsy WSDL
   * falls back to the bundled file, a missing QR validation URL becomes the empty string.
   */
  function NewConfig(wsdl: Option<string>, certPath: string, certPassword: string, qrValidationUrl: Option<string>,
                     dir: string): (c: VerifactuConfig)
    ensures Truthy(wsdl) ==> c.GetWsdl() == wsdl.value
    ensures !Truthy(wsdl) ==> c.GetWsdl() == dir + BUNDLED_WSDL_PATH && EndsWith(c.GetWsdl(), BUNDLED_WSDL_SUFFIX)
    ensures c.GetCertPath() == certPath && c.GetCertPassword() == certPassword
    ensures c.GetQrValidationUrl() == if qrValidationUrl.Some? then qrValidationUrl.value else ""
  {
    EndsWithAppended(dir + "/../..", BUNDLED_WSDL_SUFFIX);
    assert dir + BUNDLED_WSDL_PATH == dir + "/../.." + BUNDLED_WSDL_SUFFIX;
    VerifactuConfig(
      if Truthy(wsdl) then wsdl.value else dir + BUNDLED_WSDL_PATH,
      certPath,
      certPassword,
      match qrValidationUrl case Some(u) => u case None => "")
  }

  /** '0' is a falsy string, so it too falls back to the bundled WSDL. */
  lemma ZeroWsdlFallsBack(certPath: string, certPassword: string, qrValidationUrl: Option<string>, dir: string)
    ensures NewConfig(Some("0"), certPath, certPassword, qrValidationUrl, dir).GetWsdl() == dir + BUNDLED_WSDL_PATH
  {
  }
}
