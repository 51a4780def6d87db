/**
 * The rule-driven validation of the library's model objects: an ordered list of rules, each
 * naming one or several properties and a validator, walked in order while the messages of
 * every failed check are appended to a map from property to messages.
 */
module Validation {
  import opened Wrappers
  import opened Records

  /** The PHP values a property can hold, as far as the validators tell them apart. */
  datatype Value =
    | Null
    | Bool(b: bool)
    | Int(i: int)
    | Float(f: real)
    | Str(s: string)
    | Arr(items: seq<Value>)
    | Obj(className: string)

  /**
   * A validator: a name such as 'required', 'string', 'integer', 'float' or 'email', or a
   * callable given the value and the model's properties.
   */
  datatype Validator =
    | Named(name: string)
    | Callable(check: (Value, map<string, Value>) -> Value)

  /** `[properties, validator]`; a rule naming a single property has a one-element list. */
  datatype Rule = Rule(properties: seq<string>, validator: Validator)

  /** What performValidation returns: `true`, or the map from property to its messages. */
  datatype Outcome = Passed | Failed(errors: map<string, seq<string>>)

  const REQUIRED_MESSAGE: string := "This field is required."
  const STRING_MESSAGE: string := "Must be a string."
  const INTEGER_MESSAGE: string := "Must be an integer."
  const FLOAT_MESSAGE: string := "Must be a float."
  const EMAIL_MESSAGE: string := "Must be a valid email address."

  /** The type checks that let a null value pass. */
  const NULL_SKIPPED: seq<string> := ["string", "integer", "float", "email"]

  function UnknownMessage(name: string): string {
    "Unknown validator: " + name
  }

  function CallableFailedMessage(property: string): string {
    "Validation failed for " + property + "."
  }

  /** The value of a property: what its getter or the property holds, null when there is none. */
  function Resolve(properties: map<string, Value>, p: string): Value {
    if p in properties then properties[p] else Null
  }

  /** `null`, `''` and `[]`: the values 'required' rejects. */
  predicate IsBlank(v: Value) {
    v == Null || v == Str("") || v == Arr([])
  }

  /** The message one validator adds for one property holding `value`, or None when the check passes. */
  function Check(validator: Validator, p: string, value: Value, properties: map<string, Value>,
                 isEmail: string -> bool): (r: Option<string>)
    ensures validator == Named("required") ==> (r.Some? <==> IsBlank(value)) && (r.Some? ==> r.value == REQUIRED_MESSAGE)
    ensures validator.Named? && validator.name in NULL_SKIPPED && value == Null ==> r == None
    ensures validator.Named? && validator.name != "required" && validator.name !in NULL_SKIPPED ==>
      r == Some(UnknownMessage(validator.name))
    ensures validator == Named("string") ==> (r == None <==> value.Null? || value.Str?)
    ensures validator == Named("integer") ==> (r == None <==> value.Null? || value.Int?)
    ensures validator == Named("float") ==> (r == None <==> value.Null? || value.Int? || value.Float?)
    ensures validator == Named("email") ==> (r == None <==> value.Null? || (value.Str? && isEmail(value.s)))
    ensures validator == Named("string") && r.Some? ==> r.value == STRING_MESSAGE
    ensures validator == Named("integer") && r.Some? ==> r.value == INTEGER_MESSAGE
    ensures validator == Named("float") && r.Some? ==> r.value == FLOAT_MESSAGE
    ensures validator == Named("email") && r.Some? ==> r.value == EMAIL_MESSAGE
    ensures validator.Callable? ==> (r == None <==> validator.check(value, properties) == Bool(true))
    ensures validator.Callable? && validator.check(value, properties).Str? ==> r == Some(validator.check(value, properties).s)
    ensures validator.Callable? && r.Some? && !validator.check(value, properties).Str? ==> r == Some(CallableFailedMessage(p))
  {
    match validator
    case Named(name) =>
      if name == "required" then
        if IsBlank(value) then Some(REQUIRED_MESSAGE) else None
      else if value == Null && name in NULL_SKIPPED then None
      else if name == "string" then
        if value.Str? then None else Some(STRING_MESSAGE)
      else if name == "integer" then
        if value.Int? then None else Some(INTEGER_MESSAGE)
      else if name == "float" then
        if value.Float? || value.Int? then None else Some(FLOAT_MESSAGE)
      else if name == "email" then
        if value.Str? && isEmail(value.s) then None else Some(EMAIL_MESSAGE)
      else Some(UnknownMessage(name))
    case Callable(check) =>
      var result := check(value, properties);
      if result == Bool(true) then None
      else if result.Str? then Some(result.s)
      else Some(CallableFailedMessage(p))
  }

  // ---------------------------------------------------------------- the error map

  function Lookup(errors: map<string, seq<string>>, p: string): seq<string> {
    if p in errors then errors[p] else []
  }

  /** `$errors[$property][] = $message`. */
  function Append(errors: map<string, seq<string>>, p: string, message: string): (r: map<string, seq<string>>)
    ensures r.Keys == errors.Keys + {p}
    ensures r[p] == Lookup(errors, p) + [message]
    ensures forall q :: q in errors && q != p ==> r[q] == errors[q]
  {
    errors[p := Lookup(errors, p) + [message]]
  }

  /** The errors after one property has been checked against one validator (skipped when excluded). */
  function Step(errors: map<string, seq<string>>, p: string, validator: Validator,
                exclude: seq<string>, properties: map<string, Value>, isEmail: string -> bool): map<string, seq<string>>
  {
    if p in exclude then errors
    else
      match Check(validator, p, Resolve(properties, p), properties, isEmail)
      case None => errors
      case Some(m) => Append(errors, p, m)
  }

  /** The errors after one rule has been applied to the given properties, in order. */
  function CheckProperties(errors: map<string, seq<string>>, props: seq<string>, validator: Validator,
                           exclude: seq<string>, properties: map<string, Value>, isEmail: string -> bool): map<string, seq<string>>
    decreases |props|
  {
    if props == [] then errors
    else
      Step(CheckProperties(errors, props[..|props| - 1], validator, exclude, properties, isEmail),
           props[|props| - 1], validator, exclude, properties, isEmail)
  }

  /** The error map after the given rules have all been applied, in order, skipping excluded properties. */
  function ErrorMap(rules: seq<Rule>, exclude: seq<string>, properties: map<string, Value>,
                    isEmail: string -> bool): map<string, seq<string>>
    decreases |rules|
  {
    if rules == [] then map[]
    else
      var last := rules[|rules| - 1];
      CheckProperties(ErrorMap(rules[..|rules| - 1], exclude, properties, isEmail),
                      last.properties, last.validator, exclude, properties, isEmail)
  }

  /** `$errors === [] ? true : $errors`. */
  function Judge(errors: map<string, seq<string>>): (o: Outcome)
    ensures o.Passed? <==> errors == map[]
    ensures o.Failed? ==> o.errors == errors
  {
    if errors == map[] then Passed else Failed(errors)
  }

  // ---------------------------------------------------------------- one property at a time

  /** The messages one rule gives property p: one per occurrence of p in its list, when the check fails. */
  function OccurrenceMessages(props: seq<string>, p: string, m: Option<string>): seq<string>
    decreases |props|
  {
    if props == [] then []
    else OccurrenceMessages(props[..|props| - 1], p, m) + (if props[|props| - 1] == p && m.Some? then [m.value] else [])
  }

  /** Reference definition: the messages property p collects, rule after rule, as if validated alone. */
  function PropertyMessages(rules: seq<Rule>, p: string, properties: map<string, Value>,
                            isEmail: string -> bool): seq<string>
    decreases |rules|
  {
    if rules == [] then []
    else
      var last := rules[|rules| - 1];
      PropertyMessages(rules[..|rules| - 1], p, properties, isEmail) +
      OccurrenceMessages(last.properties, p, Check(last.validator, p, Resolve(properties, p), properties, isEmail))
  }

  lemma {:induction false} CheckPropertiesLookup(errors: map<string, seq<string>>, props: seq<string>, validator: Validator,
                                                 exclude: seq<string>, properties: map<string, Value>, isEmail: string -> bool, p: string)
    ensures Lookup(CheckProperties(errors, props, validator, exclude, properties, isEmail), p) ==
      Lookup(errors, p) +
      (if p in exclude then [] else OccurrenceMessages(props, p, Check(validator, p, Resolve(properties, p), properties, isEmail)))
    decreases |props|
  {
    if props != [] {
      var init := props[..|props| - 1];
      var q := props[|props| - 1];
      var before := CheckProperties(errors, init, validator, exclude, properties, isEmail);
      CheckPropertiesLookup(errors, init, validator, exclude, properties, isEmail, p);
      StepLookup(before, q, validator, exclude, properties, isEmail, p);
      var m := Check(validator, p, Resolve(properties, p), properties, isEmail);
      if p !in exclude {
        var tail := if q == p && m.Some? then [m.value] else [];
        assert OccurrenceMessages(props, p, m) == OccurrenceMessages(init, p, m) + tail;
        assert Lookup(errors, p) + OccurrenceMessages(init, p, m) + tail ==
               Lookup(errors, p) + (OccurrenceMessages(init, p, m) + tail);
      }
    }
  }

  /** One step adds at most one message, and only under the property it checked. */
  lemma StepLookup(errors: map<string, seq<string>>, q: string, validator: Validator,
                   exclude: seq<string>, properties: map<string, Value>, isEmail: string -> bool, p: string)
    ensures var m := Check(validator, q, Resolve(properties, q), properties, isEmail);
      Lookup(Step(errors, q, validator, exclude, properties, isEmail), p) ==
      Lookup(errors, p) + (if q == p && q !in exclude && m.Some? then [m.value] else [])
  {
  }

  /** The error map, read at one property, is that property's own messages (none when excluded). */
  lemma {:induction false} ErrorMapLookup(rules: seq<Rule>, exclude: seq<string>, properties: map<string, Value>,
                                          isEmail: string -> bool, p: string)
    ensures Lookup(ErrorMap(rules, exclude, properties, isEmail), p) ==
      if p in exclude then [] else PropertyMessages(rules, p, properties, isEmail)
    decreases |rules|
  {
    if rules != [] {
      var last := rules[|rules| - 1];
      ErrorMapLookup(rules[..|rules| - 1], exclude, properties, isEmail, p);
      CheckPropertiesLookup(ErrorMap(rules[..|rules| - 1], exclude, properties, isEmail),
                            last.properties, last.validator, exclude, properties, isEmail, p);
    }
  }

  /** Only properties with at least one message are keys of the error map. */
  predicate NoEmptyEntries(errors: map<string, seq<string>>) {
    forall q :: q in errors ==> errors[q] != []
  }

  lemma {:induction false} CheckPropertiesNoEmptyEntries(errors: map<string, seq<string>>, props: seq<string>, validator: Validator,
                                                         exclude: seq<string>, properties: map<string, Value>, isEmail: string -> bool)
    requires NoEmptyEntries(errors)
    ensures NoEmptyEntries(CheckProperties(errors, props, validator, exclude, properties, isEmail))
    decreases |props|
  {
    if props != [] {
      CheckPropertiesNoEmptyEntries(errors, props[..|props| - 1], validator, exclude, properties, isEmail);
    }
  }

  lemma {:induction false} ErrorMapNoEmptyEntries(rules: seq<Rule>, exclude: seq<string>, properties: map<string, Value>,
                                                  isEmail: string -> bool)
    ensures NoEmptyEntries(ErrorMap(rules, exclude, properties, isEmail))
    decreases |rules|
  {
    if rules != [] {
      var last := rules[|rules| - 1];
      ErrorMapNoEmptyEntries(rules[..|rules| - 1], exclude, properties, isEmail);
      CheckPropertiesNoEmptyEntries(ErrorMap(rules[..|rules| - 1], exclude, properties, isEmail),
                                    last.properties, last.validator, exclude, properties, isEmail);
    }
  }

  /** Excluding properties only deletes their keys: validateExcept(E) is validate() without the keys in E. */
  lemma ExcludeRemovesKeys(rules: seq<Rule>, exclude: seq<string>, properties: map<string, Value>, isEmail: string -> bool)
    ensures ErrorMap(rules, exclude, properties, isEmail) ==
      ErrorMap(rules, [], properties, isEmail) - (set q | q in exclude)
  {
    var partial := ErrorMap(rules, exclude, properties, isEmail);
    var full := ErrorMap(rules, [], properties, isEmail);
    var expected := full - (set q | q in exclude);
    ErrorMapNoEmptyEntries(rules, exclude, properties, isEmail);
    ErrorMapNoEmptyEntries(rules, [], properties, isEmail);
    forall q ensures Lookup(partial, q) == Lookup(expected, q) {
      ErrorMapLookup(rules, exclude, properties, isEmail, q);
      ErrorMapLookup(rules, [], properties, isEmail, q);
    }
    forall q ensures q in partial <==> q in expected {
      assert Lookup(partial, q) == Lookup(expected, q);
    }
    forall q | q in partial ensures partial[q] == expected[q] {
      assert Lookup(partial, q) == Lookup(expected, q);
    }
  }

  /** Validation passes exactly when no property outside the exclusions collects a message. */
  lemma PassesIffNoMessages(rules: seq<Rule>, exclude: seq<string>, properties: map<string, Value>, isEmail: string -> bool)
    ensures Judge(ErrorMap(rules, exclude, properties, isEmail)).Passed? <==>
      forall p :: p !in exclude ==> PropertyMessages(rules, p, properties, isEmail) == []
  {
    var errors := ErrorMap(rules, exclude, properties, isEmail);
    ErrorMapNoEmptyEntries(rules, exclude, properties, isEmail);
    forall p ensures Lookup(errors, p) == if p in exclude then [] else PropertyMessages(rules, p, properties, isEmail) {
      ErrorMapLookup(rules, exclude, properties, isEmail, p);
    }
    if errors != map[] {
      var q :| q in errors;
      assert Lookup(errors, q) != [];
    }
  }

  lemma {:induction false} OccurrenceReported(props: seq<string>, p: string, m: string)
    requires p in props
    ensures m in OccurrenceMessages(props, p, Some(m))
    decreases |props|
  {
    if props[|props| - 1] != p {
      assert p in props[..|props| - 1] by {
        var k :| 0 <= k < |props| && props[k] == p;
        assert props[..|props| - 1][k] == p;
      }
      OccurrenceReported(props[..|props| - 1], p, m);
    }
  }

  /** No short-circuit: a failing check of any rule naming p shows up among p's messages. */
  lemma {:induction false} FailureReported(rules: seq<Rule>, i: nat, p: string, properties: map<string, Value>, isEmail: string -> bool)
    requires i < |rules| && p in rules[i].properties
    requires Check(rules[i].validator, p, Resolve(properties, p), properties, isEmail).Some?
    ensures Check(rules[i].validator, p, Resolve(properties, p), properties, isEmail).value in
      PropertyMessages(rules, p, properties, isEmail)
    decreases |rules|
  {
    var m := Check(rules[i].validator, p, Resolve(properties, p), properties, isEmail);
    if i == |rules| - 1 {
      OccurrenceReported(rules[i].properties, p, m.value);
    } else {
      FailureReported(rules[..|rules| - 1], i, p, properties, isEmail);
    }
  }

  /** A 'required' rule on a blank, non-excluded property makes validation fail with the required message. */
  lemma RequiredCatchesBlank(rules: seq<Rule>, i: nat, p: string, exclude: seq<string>,
                             properties: map<string, Value>, isEmail: string -> bool)
    requires i < |rules| && rules[i].validator == Named("required") && p in rules[i].properties
    requires p !in exclude && IsBlank(Resolve(properties, p))
    ensures Judge(ErrorMap(rules, exclude, properties, isEmail)).Failed?
    ensures REQUIRED_MESSAGE in Lookup(ErrorMap(rules, exclude, properties, isEmail), p)
  {
    FailureReported(rules, i, p, properties, isEmail);
    ErrorMapLookup(rules, exclude, properties, isEmail, p);
  }

  // ---------------------------------------------------------------- the model object

  /**
   * A model object: its rules, its properties (the validators' view of its fields), the record the
   * hash generator reads, and the email predicate filter_var applies.
   */
  class Model {
    const rules: seq<Rule>
    const record: Record
    const isEmail: string -> bool
    var properties: map<string, Value>

    /** Stands for constructing a concrete model: `rules` is what its rules() returns. */
    constructor(rules: seq<Rule>, record: Record, isEmail: string -> bool, properties: map<string, Value>)
      ensures this.rules == rules && this.record == record && this.isEmail == isEmail
      ensures this.properties == properties
    {
      this.rules := rules;
      this.record := record;
      this.isEmail := isEmail;
      this.properties := properties;
    }

    /** performValidation: every rule in order, every property it names, appending each failure. */
    method PerformValidation(exclude: seq<string>) returns (outcome: Outcome)
      ensures outcome == Judge(ErrorMap(rules, exclude, properties, isEmail))
    {
      var errors: map<string, seq<string>> := map[];
      var i := 0;
      while i < |rules|
        invariant 0 <= i <= |rules|
        invariant errors == ErrorMap(rules[..i], exclude, properties, isEmail)
      {
        var props := rules[i].properties;
        var validator := rules[i].validator;
        ghost var start := errors;
        var j := 0;
        while j < |props|
          invariant 0 <= j <= |props|
          invariant errors == CheckProperties(start, props[..j], validator, exclude, properties, isEmail)
        {
          assert props[..j + 1][..j] == props[..j];
          errors := CheckProperty(errors, props[j], validator, exclude);
          j := j + 1;
        }
        assert props[..j] == props;
        assert rules[..i + 1][..i] == rules[..i];
        i := i + 1;
      }
      assert rules[..i] == rules;
      outcome := if errors == map[] then Passed else Failed(errors);
    }

    /** One property against one validator: lines 48-100 of the loop body, appending at most one message. */
    method CheckProperty(errors: map<string, seq<string>>, p: string, validator: Validator, exclude: seq<string>)
      returns (next: map<string, seq<string>>)
      ensures next == Step(errors, p, validator, exclude, properties, isEmail)
    {
      next := errors;
      if p in exclude {
        return;
      }
      var value := if p in properties then properties[p] else Null;
      match validator {
        case Named(name) =>
          if name == "required" {
            if value == Null || value == Str("") || value == Arr([]) {
              next := errors[p := Lookup(errors, p) + [REQUIRED_MESSAGE]];
            }
          } else if value == Null && name in NULL_SKIPPED {
          } else if name == "string" {
            if !value.Str? {
              next := errors[p := Lookup(errors, p) + [STRING_MESSAGE]];
            }
          } else if name == "integer" {
            if !value.Int? {
              next := errors[p := Lookup(errors, p) + [INTEGER_MESSAGE]];
            }
          } else if name == "float" {
            if !value.Float? && !value.Int? {
              next := errors[p := Lookup(errors, p) + [FLOAT_MESSAGE]];
            }
          } else if name == "email" {
            if !value.Str? || !isEmail(value.s) {
              next := errors[p := Lookup(errors, p) + [EMAIL_MESSAGE]];
            }
          } else {
            next := errors[p := Lookup(errors, p) + ["Unknown validator: " + name]];
          }
        case Callable(check) =>
          var result := check(value, properties);
          if result != Bool(true) {
            var message := if result.Str? then result.s else "Validation failed for " + p + ".";
            next := errors[p := Lookup(errors, p) + [message]];
          }
      }
    }

    /** validate(): every rule, nothing excluded. */
    method Validate() returns (outcome: Outcome)
      ensures outcome == Judge(ErrorMap(rules, [], properties, isEmail))
    {
      outcome := PerformValidation([]);
    }

    /** validateExcept($exclude): the properties listed are skipped by every rule. */
    method ValidateExcept(exclude: seq<string>) returns (outcome: Outcome)
      ensures outcome == Judge(ErrorMap(rules, exclude, properties, isEmail))
    {
      outcome := PerformValidation(exclude);
    }

    /** validateExceptHash(): validateExcept(['hash']). */
    method ValidateExceptHash() returns (outcome: Outcome)
      ensures outcome == Judge(ErrorMap(rules, ["hash"], properties, isEmail))
    {
      outcome := PerformValidation(["hash"]);
    }

    /** `$model->hash = $value`: the one property the service writes. */
    method SetHash(hash: string)
      modifies this
      ensures properties == old(properties)["hash" := Str(hash)]
    {
      properties := properties["hash" := Str(hash)];
    }
  }
}
