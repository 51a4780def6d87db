/**
 * The service that registers, cancels and queries invoice records with the AEAT: validate,
 * hash, validate again, build the XML, sign it, send it over SOAP and parse the reply. The XML
 * builder, the signer, the transport and the parsers are external; what they are asked to do is
 * recorded, in order, in a ghost trace.
 */
module Service {
  import opened Wrappers
  import opened Records
  import opened HashGenerator
  import opened Validation
  import opened Config

  /** A SOAP client, as built from the configuration's WSDL and certificate. */
  datatype SoapClient = SoapClient(wsdl: string, certPath: string, certPassword: string)

  /** A parsed AEAT reply, as the response parser returns it. */
  datatype Response = Response(body: string)

  /** The external collaborators, supplied by the runtime. */
  datatype Externals = Externals(
    crypto: Crypto,
    toXml: (Record, map<string, Value>) -> string,
    sign: (string, string, string) -> string,
    soapCall: (SoapClient, string, string, string) -> string,
    parseInvoiceResponse: string -> Response,
    parseQueryResponse: string -> Response,
    renderQr: (Record, string, string, int, string) -> string)

  /** What the service asks of its external collaborators. */
  datatype Action =
    | XmlBuilt(xml: string)
    | XmlSigned(xml: string, certPath: string)
    | ClientCreated(client: SoapClient)
    | SoapCalled(operation: string, key: string, payload: string)
    | ResponseParsed(xml: string)

  const SUBMIT_OPERATION: string := "SuministroLR"
  const QUERY_OPERATION: string := "ConsultaLR"
  const SUBMISSION_KEY: string := "RegistroAlta"
  const CANCELLATION_KEY: string := "RegistroAnulacion"
  const QUERY_KEY: string := "ConsultaFactuSistemaFacturacion"

  const SUBMISSION_INVALID: string := "InvoiceSubmission validation failed: "
  const SUBMISSION_FINAL_INVALID: string := "InvoiceSubmission final validation failed: "
  const CANCELLATION_INVALID: string := "InvoiceCancellation validation failed: "
  const CANCELLATION_FINAL_INVALID: string := "InvoiceCancellation final validation failed: "
  const QUERY_INVALID: string := "InvoiceQuery validation failed: "

  /** The QR defaults: a string destination, 300 pixels, the GD renderer. */
  const QR_DESTINATION_STRING: string := "string"
  const QR_DEFAULT_SIZE: int := 300
  const QR_RENDERER_GD: string := "gd"

  /** How many clients a trace has created. */
  function ClientsCreated(trace: seq<Action>): nat {
    if trace == [] then 0
    else ClientsCreated(trace[..|trace| - 1]) + (if trace[|trace| - 1].ClientCreated? then 1 else 0)
  }

  /** Regrouping a trace extended three times. */
  lemma AppendAssociates(t: seq<Action>, a: seq<Action>, b: seq<Action>, c: seq<Action>)
    ensures t + a + b + c == t + (a + b + c)
  {
  }

  lemma {:induction false} ClientsCreatedAppend(a: seq<Action>, b: seq<Action>)
    ensures ClientsCreated(a + b) == ClientsCreated(a) + ClientsCreated(b)
    decreases |b|
  {
    if b == [] {
      assert a + b == a;
    } else {
      var init := b[..|b| - 1];
      assert (a + b)[..|a + b| - 1] == a + init;
      ClientsCreatedAppend(a, init);
    }
  }

  /**
   * The external steps after a record has passed validation: build the XML, sign it when asked,
   * create the client on first use, call the web service and parse its reply.
   */
  function SendTrace(xml: string, payload: string, signed: bool, certPath: string, newClient: Option<SoapClient>,
                     operation: string, key: string, reply: string): (t: seq<Action>)
    ensures ClientsCreated(t) == if newClient.Some? then 1 else 0
  {
    var built := [XmlBuilt(xml)] + (if signed then [XmlSigned(xml, certPath)] else []);
    var created := if newClient.Some? then [ClientCreated(newClient.value)] else [];
    var sent := [SoapCalled(operation, key, payload), ResponseParsed(reply)];
    ClientsCreatedAppend(built, created);
    ClientsCreatedAppend(built + created, sent);
    assert sent[..1] == [SoapCalled(operation, key, payload)] && [SoapCalled(operation, key, payload)][..0] == [];
    assert ClientsCreated(built) == 0 by {
      if signed {
        assert built[..1] == [XmlBuilt(xml)];
      } else {
        assert built == [XmlBuilt(xml)];
      }
      assert [XmlBuilt(xml)][..0] == [];
    }
    built + created + sent
  }

  class VerifactuService {
    const config: VerifactuConfig
    const ext: Externals
    var client: Option<SoapClient>
    ghost var trace: seq<Action>

    /** The cached client is the one built from the configuration, and it was created exactly once. */
    ghost predicate Valid()
      reads this
    {
      (client.Some? ==> client.value == ClientFor(config)) &&
      ClientsCreated(trace) == if client.Some? then 1 else 0
    }

    constructor(config: VerifactuConfig, ext: Externals)
      ensures this.config == config && this.ext == ext
      ensures client == None && trace == []
      ensures Valid()
    {
      this.config := config;
      this.ext := ext;
      client := None;
      trace := [];
    }

    /** getClient: built from the WSDL, certificate path and password on first use, then reused. */
    method GetClient() returns (c: SoapClient)
      requires Valid()
      modifies this
      ensures Valid()
      ensures c == ClientFor(config) && client == Some(c)
      ensures trace == old(trace) + if old(client).None? then [ClientCreated(c)] else []
    {
      if client.None? {
        var created := SoapClient(config.GetWsdl(), config.GetCertPath(), config.GetCertPassword());
        client := Some(created);
        trace := trace + [ClientCreated(created)];
        ClientsCreatedAppend(old(trace), [ClientCreated(created)]);
        assert [ClientCreated(created)][..0] == [];
      }
      c := client.value;
    }

    /**
     * Build the record's XML, sign it when asked, and send it under `key` to `operation`; the reply
     * is handed to the parser by the caller.
     */
    method Send(record: Record, properties: map<string, Value>, signed: bool, operation: string, key: string)
      returns (reply: string)
      requires Valid()
      modifies this
      ensures Valid()
      ensures var xml := ext.toXml(record, properties);
        var payload := if signed then ext.sign(xml, config.certPath, config.certPassword) else xml;
        reply == ext.soapCall(ClientFor(config), operation, key, payload) && client == Some(ClientFor(config)) &&
        trace == old(trace) + SendTrace(xml, payload, signed, config.certPath,
          if old(client).None? then Some(ClientFor(config)) else None, operation, key, reply)
    {
      ghost var t0 := trace;
      var xml := ext.toXml(record, properties);
      trace := trace + [XmlBuilt(xml)];
      var payload := xml;
      if signed {
        payload := ext.sign(xml, config.GetCertPath(), config.GetCertPassword());
        trace := trace + [XmlSigned(xml, config.certPath)];
      }
      ghost var built := [XmlBuilt(xml)] + (if signed then [XmlSigned(xml, config.certPath)] else []);
      assert trace == t0 + built;
      ghost var hadClient := client.Some?;
      var c := GetClient();
      ghost var created := if hadClient then [] else [ClientCreated(c)];
      reply := ext.soapCall(c, operation, key, payload);
      ghost var done := [SoapCalled(operation, key, payload), ResponseParsed(reply)];
      trace := trace + done;
      ghost var sent := SendTrace(xml, payload, signed, config.certPath,
        if hadClient then None else Some(c), operation, key, reply);
      assert sent == built + created + done;
      AppendAssociates(t0, built, created, done);
      ClientsCreatedAppend(t0, sent);
    }

    /** Validate without the hash, store the generated hash, validate fully: the steps before anything is sent. */
    method Prepare(record: Model, invalid: string, finalInvalid: string) returns (failure: Option<Exception>)
      requires Supported(record.record)
      modifies record
      ensures var pre := ErrorMap(record.rules, ["hash"], old(record.properties), record.isEmail);
        pre != map[] ==> failure == Some(ValidationFailed(invalid, pre)) && record.properties == old(record.properties)
      ensures var pre := ErrorMap(record.rules, ["hash"], old(record.properties), record.isEmail);
        pre == map[] ==>
          record.properties == old(record.properties)["hash" := Str(Generate(record.record, ext.crypto).value)]
      ensures var pre := ErrorMap(record.rules, ["hash"], old(record.properties), record.isEmail);
        var final := ErrorMap(record.rules, [], record.properties, record.isEmail);
        pre == map[] ==> failure == if final == map[] then None else Some(ValidationFailed(finalInvalid, final))
    {
      var validation := record.ValidateExcept(["hash"]);
      if validation != Passed {
        return Some(ValidationFailed(invalid, validation.errors));
      }
      var hash := Generate(record.record, ext.crypto);
      record.SetHash(hash.value);
      var finalValidation := record.Validate();
      if finalValidation != Passed {
        return Some(ValidationFailed(finalInvalid, finalValidation.errors));
      }
      failure := None;
    }

    /**
     * Validate without the hash, store the generated hash, validate fully, then build, sign and send
     * under `key`. Shared by registerInvoice and cancelInvoice.
     */
    method Submit(record: Model, key: string, invalid: string, finalInvalid: string)
      returns (r: Result<Response, Exception>)
      requires Valid() && Supported(record.record)
      modifies this, record
      ensures Valid()
      ensures var pre := ErrorMap(record.rules, ["hash"], old(record.properties), record.isEmail);
        pre != map[] ==>
          r == Failure(ValidationFailed(invalid, pre)) &&
          record.properties == old(record.properties) && trace == old(trace) && client == old(client)
      ensures var pre := ErrorMap(record.rules, ["hash"], old(record.properties), record.isEmail);
        pre == map[] ==>
          record.properties == old(record.properties)["hash" := Str(Generate(record.record, ext.crypto).value)]
      ensures var pre := ErrorMap(record.rules, ["hash"], old(record.properties), record.isEmail);
        var final := ErrorMap(record.rules, [], record.properties, record.isEmail);
        pre == map[] && final != map[] ==>
          r == Failure(ValidationFailed(finalInvalid, final)) && trace == old(trace) && client == old(client)
      ensures var pre := ErrorMap(record.rules, ["hash"], old(record.properties), record.isEmail);
        var final := ErrorMap(record.rules, [], record.properties, record.isEmail);
        var xml := ext.toXml(record.record, old(record.properties)["hash" := Str(Generate(record.record, ext.crypto).value)]);
        var signed := ext.sign(xml, config.certPath, config.certPassword);
        var reply := ext.soapCall(ClientFor(config), SUBMIT_OPERATION, key, signed);
        pre == map[] && final == map[] ==>
          r == Success(ext.parseInvoiceResponse(reply)) && client == Some(ClientFor(config)) &&
          trace == old(trace) + SendTrace(xml, signed, true, config.certPath,
            if old(client).None? then Some(ClientFor(config)) else None, SUBMIT_OPERATION, key, reply)
    {
      var failure := Prepare(record, invalid, finalInvalid);
      if failure.Some? {
        return Failure(failure.value);
      }
      var reply := Send(record.record, record.properties, true, SUBMIT_OPERATION, key);
      r := Success(ext.parseInvoiceResponse(reply));
    }

    /** registerInvoice: a submission ("RegistroAlta") sent to SuministroLR. */
    method RegisterInvoice(invoice: Model) returns (r: Result<Response, Exception>)
      requires Valid() && invoice.record.Submission?
      modifies this, invoice
      ensures Valid()
      ensures var pre := ErrorMap(invoice.rules, ["hash"], old(invoice.properties), invoice.isEmail);
        pre != map[] ==>
          r == Failure(ValidationFailed(SUBMISSION_INVALID, pre)) &&
          invoice.properties == old(invoice.properties) && trace == old(trace) && client == old(client)
      ensures var pre := ErrorMap(invoice.rules, ["hash"], old(invoice.properties), invoice.isEmail);
        pre == map[] ==>
          invoice.properties == old(invoice.properties)["hash" := Str(Generate(invoice.record, ext.crypto).value)]
      ensures var pre := ErrorMap(invoice.rules, ["hash"], old(invoice.properties), invoice.isEmail);
        var final := ErrorMap(invoice.rules, [], invoice.properties, invoice.isEmail);
        pre == map[] && final != map[] ==>
          r == Failure(ValidationFailed(SUBMISSION_FINAL_INVALID, final)) && trace == old(trace) && client == old(client)
      ensures var pre := ErrorMap(invoice.rules, ["hash"], old(invoice.properties), invoice.isEmail);
        var final := ErrorMap(invoice.rules, [], invoice.properties, invoice.isEmail);
        var xml := ext.toXml(invoice.record, old(invoice.properties)["hash" := Str(Generate(invoice.record, ext.crypto).value)]);
        var signed := ext.sign(xml, config.certPath, config.certPassword);
        var reply := ext.soapCall(ClientFor(config), SUBMIT_OPERATION, SUBMISSION_KEY, signed);
        pre == map[] && final == map[] ==>
          r == Success(ext.parseInvoiceResponse(reply)) &&
          trace == old(trace) + SendTrace(xml, signed, true, config.certPath,
            if old(client).None? then Some(ClientFor(config)) else None, SUBMIT_OPERATION, SUBMISSION_KEY, reply)
    {
      r := Submit(invoice, SUBMISSION_KEY, SUBMISSION_INVALID, SUBMISSION_FINAL_INVALID);
    }

    /** cancelInvoice: a cancellation ("RegistroAnulacion") sent to SuministroLR. */
    method CancelInvoice(cancellation: Model) returns (r: Result<Response, Exception>)
      requires Valid() && cancellation.record.Cancellation?
      modifies this, cancellation
      ensures Valid()
      ensures var pre := ErrorMap(cancellation.rules, ["hash"], old(cancellation.properties), cancellation.isEmail);
        pre != map[] ==>
          r == Failure(ValidationFailed(CANCELLATION_INVALID, pre)) &&
          cancellation.properties == old(cancellation.properties) && trace == old(trace) && client == old(client)
      ensures var pre := ErrorMap(cancellation.rules, ["hash"], old(cancellation.properties), cancellation.isEmail);
        pre == map[] ==>
          cancellation.properties == old(cancellation.properties)["hash" := Str(Generate(cancellation.record, ext.crypto).value)]
      ensures var pre := ErrorMap(cancellation.rules, ["hash"], old(cancellation.properties), cancellation.isEmail);
        var final := ErrorMap(cancellation.rules, [], cancellation.properties, cancellation.isEmail);
        pre == map[] && final != map[] ==>
          r == Failure(ValidationFailed(CANCELLATION_FINAL_INVALID, final)) && trace == old(trace) && client == old(client)
      ensures var pre := ErrorMap(cancellation.rules, ["hash"], old(cancellation.properties), cancellation.isEmail);
        var final := ErrorMap(cancellation.rules, [], cancellation.properties, cancellation.isEmail);
        var xml := ext.toXml(cancellation.record, old(cancellation.properties)["hash" := Str(Generate(cancellation.record, ext.crypto).value)]);
        var signed := ext.sign(xml, config.certPath, config.certPassword);
        var reply := ext.soapCall(ClientFor(config), SUBMIT_OPERATION, CANCELLATION_KEY, signed);
        pre == map[] && final == map[] ==>
          r == Success(ext.parseInvoiceResponse(reply)) &&
          trace == old(trace) + SendTrace(xml, signed, true, config.certPath,
            if old(client).None? then Some(ClientFor(config)) else None, SUBMIT_OPERATION, CANCELLATION_KEY, reply)
    {
      r := Submit(cancellation, CANCELLATION_KEY, CANCELLATION_INVALID, CANCELLATION_FINAL_INVALID);
    }

    /** queryInvoices: validate, then send the unsigned query XML to ConsultaLR; no hash, no signature. */
    method QueryInvoices(query: Model) returns (r: Result<Response, Exception>)
      requires Valid() && query.record.Query?
      modifies this
      ensures Valid()
      ensures var errors := ErrorMap(query.rules, [], query.properties, query.isEmail);
        errors != map[] ==> r == Failure(ValidationFailed(QUERY_INVALID, errors)) && trace == old(trace) && client == old(client)
      ensures var errors := ErrorMap(query.rules, [], query.properties, query.isEmail);
        var xml := ext.toXml(query.record, query.properties);
        var reply := ext.soapCall(ClientFor(config), QUERY_OPERATION, QUERY_KEY, xml);
        errors == map[] ==>
          r == Success(ext.parseQueryResponse(reply)) &&
          trace == old(trace) + SendTrace(xml, xml, false, config.certPath,
            if old(client).None? then Some(ClientFor(config)) else None, QUERY_OPERATION, QUERY_KEY, reply)
    {
      var validation := query.Validate();
      if validation != Passed {
        return Failure(ValidationFailed(QUERY_INVALID, validation.errors));
      }
      var reply := Send(query.record, query.properties, false, QUERY_OPERATION, QUERY_KEY);
      r := Success(ext.parseQueryResponse(reply));
    }

    /** generateInvoiceQr: the record rendered against the configured QR validation URL. */
    function GenerateInvoiceQr(record: Record, destination: string := QR_DESTINATION_STRING,
                               size: int := QR_DEFAULT_SIZE, engine: string := QR_RENDERER_GD): (qr: string)
    {
      ext.renderQr(record, config.GetQrValidationUrl(), destination, size, engine)
    }
  }

  /** The client getClient builds from a configuration. */
  function ClientFor(config: VerifactuConfig): (c: SoapClient)
    ensures c.wsdl == config.GetWsdl() && c.certPath == config.GetCertPath() && c.certPassword == config.GetCertPassword()
  {
    SoapClient(config.GetWsdl(), config.GetCertPath(), config.GetCertPassword())
  }
}
