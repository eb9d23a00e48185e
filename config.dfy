/**
 * `ParseConfig`: the structural check applied to the loaded YAML configuration.
 * `Validate` follows the checks in the order the program runs them and stops at the
 * first that fails; `Violates` states each rule on its own, and the lemmas show that
 * `Validate` reports exactly the earliest rule the document breaks.
 */
module Config {
  import opened Wrappers

  /** A loaded YAML document: scalars and string-keyed mappings. */
  datatype Value =
    | Null
    | Bool(b: bool)
    | Int(i: int)
    | Str(s: string)
    | Mapping(entries: map<string, Value>)

  /** Why a configuration is refused, one constructor per raise in the validator. */
  datatype ConfigError =
    | ConfigNotMapping         // the document has no `.keys()` (it is not a mapping)
    | MissingDeviceOrEndpoint  // 'device or endpoint key is missing!'
    | DeviceNotMapping         // the `device` entry has no `.keys()`
    | MissingHostOrPort        // 'host or port key is missing in device!'
    | EmptyDeviceValue         // 'host or port key is empty in device!'
    | EmptyEndpoint            // 'endpoint cannot be empty!'
    | TransmissionNotBool      // 'transmission key must have to be either true or false!'

  /** `ParseConfig._validate`: `Pass`, or the error of the first check that fails. */
  function Validate(config: Value): (r: Outcome<ConfigError>)
  {
    if !config.Mapping? then Fail(ConfigNotMapping)
    else if !("device" in config.entries && "endpoint" in config.entries) then Fail(MissingDeviceOrEndpoint)
    else
      var device := config.entries["device"];
      if !device.Mapping? then Fail(DeviceNotMapping)
      else if !("host" in device.entries && "port" in device.entries) then Fail(MissingHostOrPort)
      else if Null in device.entries.Values then Fail(EmptyDeviceValue)
      else if config.entries["endpoint"] == Null then Fail(EmptyEndpoint)
      else if "transmission" in config.entries && !config.entries["transmission"].Bool? then Fail(TransmissionNotBool)
      else Pass
  }

  /** The position of each check in the validator. */
  function Rank(e: ConfigError): nat {
    match e
    case ConfigNotMapping => 0
    case MissingDeviceOrEndpoint => 1
    case DeviceNotMapping => 2
    case MissingHostOrPort => 3
    case EmptyDeviceValue => 4
    case EmptyEndpoint => 5
    case TransmissionNotBool => 6
  }

  /** The `device` entry's own mapping, when the document and the entry are both mappings. */
  function DeviceEntries(config: Value): Option<map<string, Value>> {
    if config.Mapping? && "device" in config.entries && config.entries["device"].Mapping?
    then Some(config.entries["device"].entries)
    else None
  }

  /** Each rule, stated on its own, independently of the others and of their order. */
  predicate Violates(config: Value, e: ConfigError) {
    match e
    case ConfigNotMapping => !config.Mapping?
    case MissingDeviceOrEndpoint =>
      config.Mapping? && ("device" !in config.entries || "endpoint" !in config.entries)
    case DeviceNotMapping =>
      config.Mapping? && "device" in config.entries && !config.entries["device"].Mapping?
    case MissingHostOrPort =>
      DeviceEntries(config).Some? && ("host" !in DeviceEntries(config).value || "port" !in DeviceEntries(config).value)
    case EmptyDeviceValue =>
      DeviceEntries(config).Some? && exists k :: k in DeviceEntries(config).value && DeviceEntries(config).value[k] == Null
    case EmptyEndpoint =>
      config.Mapping? && "endpoint" in config.entries && config.entries["endpoint"] == Null
    case TransmissionNotBool =>
      config.Mapping? && "transmission" in config.entries && !config.entries["transmission"].Bool?
  }

  /** The validator refuses a document with error `e` exactly when `e`'s rule is broken and no earlier rule is. */
  lemma ValidateReportsFirstViolation(config: Value, e: ConfigError)
    ensures Validate(config) == Fail(e) <==>
              Violates(config, e) && forall e' :: Rank(e') < Rank(e) ==> !Violates(config, e')
  {
    forall e' ensures Validate(config).Fail? && Rank(e') < Rank(Validate(config).error) ==> !Violates(config, e') {
      NoEarlierViolation(config, e');
    }
    match Validate(config)
    case Pass =>
      PassBreaksNothing(config, e);
    case Fail(f) =>
      ReportedIsViolated(config);
      assert Rank(e) == Rank(f) ==> e == f;
  }

  /** Helper: the error the validator reports names a rule the document breaks. */
  lemma ReportedIsViolated(config: Value)
    ensures Validate(config).Fail? ==> Violates(config, Validate(config).error)
  {
    if DeviceEntries(config).Some? {
      var dev := DeviceEntries(config).value;
      if Null in dev.Values {
        var k :| k in dev && dev[k] == Null;
      }
    }
  }

  /** Helper: whatever the validator reports, no rule ranked before it is broken. */
  lemma NoEarlierViolation(config: Value, e': ConfigError)
    ensures Validate(config).Fail? && Rank(e') < Rank(Validate(config).error) ==> !Violates(config, e')
  {
    if DeviceEntries(config).Some? {
      var dev := DeviceEntries(config).value;
      forall k | k in dev ensures dev[k] == Null ==> Null in dev.Values {
        assert dev[k] in dev.Values;
      }
    }
  }

  /** Helper: a document the validator accepts breaks no rule. */
  lemma PassBreaksNothing(config: Value, e: ConfigError)
    ensures Validate(config) == Pass ==> !Violates(config, e)
  {
    if DeviceEntries(config).Some? {
      var dev := DeviceEntries(config).value;
      forall k | k in dev ensures dev[k] == Null ==> Null in dev.Values {
        assert dev[k] in dev.Values;
      }
    }
  }

  /** The validator accepts a document exactly when it breaks none of the rules. */
  lemma ValidateAcceptsExactly(config: Value)
    ensures Validate(config) == Pass <==> forall e :: !Violates(config, e)
  {
    forall e ensures Validate(config) == Pass ==> !Violates(config, e) {
      PassBreaksNothing(config, e);
    }
    ReportedIsViolated(config);
  }

  /**
   * The null check covers every key of `device`, not only `host` and `port`: adding a key with an
   * empty value to an accepted configuration makes it refused, and adding one with a value keeps it accepted.
   */
  lemma ExtraDeviceKeyChecked(config: Value, key: string, v: Value)
    requires Validate(config) == Pass
    ensures var device := config.entries["device"];
            var extended := Mapping(config.entries["device" := Mapping(device.entries[key := v])]);
            Validate(extended) == (if v == Null then Fail(EmptyDeviceValue) else Pass)
  {
    var device := config.entries["device"];
    var dev' := device.entries[key := v];
    if v == Null {
      assert dev'[key] == Null;
      assert Null in dev'.Values;
    } else {
      forall w | w in dev'.Values ensures w != Null {
        var k :| k in dev' && dev'[k] == w;
        if k != key {
          assert device.entries[k] in device.entries.Values;
        }
      }
    }
  }

  /** `ParseConfig.parse` after loading: the document unchanged when it passes validation, else the first rule it breaks. */
  function Parse(document: Value): (r: Result<Value, ConfigError>)
    ensures r.Ok? <==> forall e :: !Violates(document, e)
    ensures r.Ok? ==> r.value == document
    ensures r.Err? ==> Violates(document, r.error)
                       && forall e' :: Rank(e') < Rank(r.error) ==> !Violates(document, e')
  {
    ValidateAcceptsExactly(document);
    match Validate(document)
    case Pass => Ok(document)
    case Fail(e) =>
      ValidateReportsFirstViolation(document, e);
      Err(e)
  }
}
