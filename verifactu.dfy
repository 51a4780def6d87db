/**
 * The library's entry point: the AEAT endpoints, the choice of endpoint and QR validation URL
 * from the environment and the certificate type, and the deprecated static API.
 */
module Verifactu {
  import opened Wrappers
  import opened Config
  import opened Records
  import opened Service

  const ENVIRONMENT_PRODUCTION: string := "production"
  const ENVIRONMENT_SANDBOX: string := "sandbox"

  const URL_PRODUCTION: string := "https://www1.agenciatributaria.gob.es/wlpl/TIKE-CONT/ws/SistemaFacturacion/VerifactuSOAP"
  const URL_PRODUCTION_SEAL: string := "https://www10.agenciatributaria.gob.es/wlpl/TIKE-CONT/ws/SistemaFacturacion/VerifactuSOAP"
  const URL_TEST: string := "https://prewww1.aeat.es/wlpl/TIKE-CONT/ws/SistemaFacturacion/VerifactuSOAP"
  const URL_TEST_SEAL: string := "https://prewww10.aeat.es/wlpl/TIKE-CONT/ws/SistemaFacturacion/VerifactuSOAP"

  const QR_VERIFICATION_URL_PRODUCTION: string := "https://www2.agenciatributaria.gob.es/wlpl/TIKE-CONT/ValidarQR"
  const QR_VERIFICATION_URL_TEST: string := "https://prewww2.aeat.es/wlpl/TIKE-CONT/ValidarQR"

  const TYPE_CERTIFICATE: string := "certificate"
  const TYPE_SEAL: string := "seal"

  function InvalidEnvironment(environment: string): Exception {
    InvalidArgument("Invalid environment: " + environment)
  }

  predicate KnownEnvironment(environment: string) {
    environment == ENVIRONMENT_PRODUCTION || environment == ENVIRONMENT_SANDBOX
  }

  /** The SOAP endpoint: per environment, the seal endpoint for a seal certificate, the plain one otherwise. */
  function Endpoint(environment: string, certType: string): (r: Result<string, Exception>)
    ensures r.Success? <==> KnownEnvironment(environment)
    ensures r.Failure? ==> r.error == InvalidEnvironment(environment)
    ensures r.Success? ==> r.value in {URL_PRODUCTION, URL_PRODUCTION_SEAL, URL_TEST, URL_TEST_SEAL}
    ensures r.Success? ==> (r.value in {URL_PRODUCTION_SEAL, URL_TEST_SEAL} <==> certType == TYPE_SEAL)
    ensures r.Success? ==> (r.value in {URL_PRODUCTION, URL_PRODUCTION_SEAL} <==> environment == ENVIRONMENT_PRODUCTION)
  {
    EndpointsDistinct();
    if environment == ENVIRONMENT_PRODUCTION then
      Success(if certType == TYPE_SEAL then URL_PRODUCTION_SEAL else URL_PRODUCTION)
    else if environment == ENVIRONMENT_SANDBOX then
      Success(if certType == TYPE_SEAL then URL_TEST_SEAL else URL_TEST)
    else Failure(InvalidEnvironment(environment))
  }

  /** The QR validation URL: fixed by the environment alone. */
  function QrVerificationUrl(environment: string): (r: Result<string, Exception>)
    ensures r.Success? <==> KnownEnvironment(environment)
    ensures r.Failure? ==> r.error == InvalidEnvironment(environment)
    ensures r.Success? ==> (r.value == QR_VERIFICATION_URL_PRODUCTION <==> environment == ENVIRONMENT_PRODUCTION)
    ensures r.Success? ==> r.value == if environment == ENVIRONMENT_PRODUCTION then QR_VERIFICATION_URL_PRODUCTION
                                      else QR_VERIFICATION_URL_TEST
  {
    QrUrlsDistinct();
    if environment == ENVIRONMENT_PRODUCTION then Success(QR_VERIFICATION_URL_PRODUCTION)
    else if environment == ENVIRONMENT_SANDBOX then Success(QR_VERIFICATION_URL_TEST)
    else Failure(InvalidEnvironment(environment))
  }

  /** The four endpoints are pairwise different. */
  lemma EndpointsDistinct()
    ensures URL_PRODUCTION != URL_PRODUCTION_SEAL && URL_TEST != URL_TEST_SEAL
    ensures URL_PRODUCTION != URL_TEST && URL_PRODUCTION != URL_TEST_SEAL
    ensures URL_PRODUCTION_SEAL != URL_TEST && URL_PRODUCTION_SEAL != URL_TEST_SEAL
  {
    EndpointLengths();
  }

  lemma EndpointLengths()
    ensures |URL_PRODUCTION| == 88 && |URL_PRODUCTION_SEAL| == 89
    ensures |URL_TEST| == 74 && |URL_TEST_SEAL| == 75
  {
  }

  lemma QrUrlsDistinct()
    ensures QR_VERIFICATION_URL_PRODUCTION != QR_VERIFICATION_URL_TEST
  {
    assert |QR_VERIFICATION_URL_PRODUCTION| == 62 && |QR_VERIFICATION_URL_TEST| == 48;
  }

  /** The endpoint tells the environment and whether a seal certificate was chosen. */
  lemma EndpointDeterminesChoice(e1: string, c1: string, e2: string, c2: string)
    requires Endpoint(e1, c1).Success? && Endpoint(e1, c1) == Endpoint(e2, c2)
    ensures e1 == e2 && (c1 == TYPE_SEAL <==> c2 == TYPE_SEAL)
  {
  }

  /** Endpoint and QR URL accept and reject the same environments. */
  lemma SameEnvironmentsAccepted(environment: string, certType: string)
    ensures Endpoint(environment, certType).Success? == QrVerificationUrl(environment).Success?
  {
  }

  /**
   * createService: pick the endpoint and QR URL, or raise for an unknown environment before any
   * configuration exists; the endpoint becomes the configuration's WSDL. `dir` and `ext` stand for
   * the installation directory and the runtime's collaborators.
   */
  method CreateService(certPath: string, certPassword: string, certType: string, dir: string, ext: Externals,
                       environment: string := ENVIRONMENT_PRODUCTION)
    returns (r: Result<VerifactuService, Exception>)
    ensures r.Success? <==> KnownEnvironment(environment)
    ensures r.Failure? ==> r.error == InvalidEnvironment(environment)
    ensures r.Success? ==>
      fresh(r.value) && r.value.Valid() && r.value.client == None && r.value.trace == [] && r.value.ext == ext &&
      r.value.config == VerifactuConfig(Endpoint(environment, certType).value, certPath, certPassword,
                                        QrVerificationUrl(environment).value)
  {
    var endpoint := Endpoint(environment, certType);
    if endpoint.Failure? {
      return Failure(endpoint.error);
    }
    // the environment is known here, so the QR match cannot fail
    var qrValidationUrl := QrVerificationUrl(environment).value;
    EndpointLengths();
    var config := NewConfig(Some(endpoint.value), certPath, certPassword, Some(qrValidationUrl), dir);
    var service := new VerifactuService(config, ext);
    r := Success(service);
  }

  /** The QR codes of a service made by CreateService point at the validation URL of its environment. */
  lemma CreatedServiceQrBaseUrl(service: VerifactuService, environment: string, certType: string,
                                certPath: string, certPassword: string, record: Record,
                                destination: string, size: int, engine: string)
    requires KnownEnvironment(environment)
    requires service.config == VerifactuConfig(Endpoint(environment, certType).value, certPath, certPassword,
                                               QrVerificationUrl(environment).value)
    ensures service.GenerateInvoiceQr(record, destination, size, engine) ==
      service.ext.renderQr(record,
                           if environment == ENVIRONMENT_PRODUCTION then QR_VERIFICATION_URL_PRODUCTION else QR_VERIFICATION_URL_TEST,
                           destination, size, engine)
  {
  }

  /** The static API kept for backward compatibility. */
  datatype StaticCall =
    | ConfigCall(certPath: string, certPassword: string, certType: string, environment: string)
    | RegisterInvoiceCall
    | CancelInvoiceCall
    | QueryInvoicesCall
    | GenerateInvoiceQrCall

  /** The service call each deprecated static method points to. */
  function Replacement(call: StaticCall): string
    requires !call.ConfigCall?
  {
    match call
    case RegisterInvoiceCall => "registerInvoice($invoice)"
    case CancelInvoiceCall => "cancelInvoice($cancellation)"
    case QueryInvoicesCall => "queryInvoices($query)"
    case GenerateInvoiceQrCall => "generateInvoiceQr($record)"
  }

  /** `config` does nothing; every other static method raises BadMethodCallException pointing to createService. */
  function CallStatic(call: StaticCall): (r: Result<(), Exception>)
    ensures r.Success? <==> call.ConfigCall?
    ensures r.Failure? ==> r.error == BadMethodCall("Use Verifactu::createService(...)->" + Replacement(call) + " instead.")
  {
    if call.ConfigCall? then Success(())
    else Failure(BadMethodCall("Use Verifactu::createService(...)->" + Replacement(call) + " instead."))
  }
}
