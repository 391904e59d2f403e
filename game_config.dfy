// The game client's configuration: the options `GameConfigFile` registers, their
// defaults, bounds and validators.

module GameConfig {
  import opened Voxel
  import opened Config

  const MaxLoginLength: nat := 32
  const MaxTokenLength: nat := 64
  const DefaultLogin: string := "Mingebag"
  const DefaultServerAddress: string := "tsom.digitalpulse.software"
  const DefaultServerPort: Int64 := 29536

  /** The validator of "Menu.Login". */
  function LoginValidation(value: string): (r: Result<string, string>)
    ensures r.Ok? <==> 0 < |value| <= MaxLoginLength
    ensures r.Ok? ==> r.value == value
    ensures value == [] ==> r == Err("name cannot be empty")
    ensures |value| > MaxLoginLength ==> r == Err("name is too long")
  {
    if value == [] then Err("name cannot be empty")
    else if |value| > MaxLoginLength then Err("name is too long")
    else Ok(value)
  }

  /** The validator of "Player.Token". */
  function TokenValidation(value: string): (r: Result<string, string>)
    ensures r.Ok? <==> |value| <= MaxTokenLength
    ensures r.Ok? ==> r.value == value
    ensures r.Err? ==> r.error == "Invalid token"
  {
    if |value| > MaxTokenLength then Err("Invalid token") else Ok(value)
  }

  /** The options in registration order, each with its initial data: the default
      value when there is one, the empty string otherwise. */
  function Registrations(): seq<(string, ConfigData)> {
    [ ("Api.Url", StringOption("", None, None)),
      ("Menu.Login", StringOption(DefaultLogin, Some(LoginValidation), Some(DefaultLogin))),
      ("Menu.ServerAddress", StringOption(DefaultServerAddress, None, Some(DefaultServerAddress))),
      ("Input.MouseSensitivity", FloatOption(1.0, 0.0, 0.3, None, Some(0.3))),
      ("Player.Token", StringOption("", Some(TokenValidation), Some(""))),
      ("Server.Port", IntegerOption(0xFFFF, 1, DefaultServerPort, None, Some(DefaultServerPort))) ]
  }

  const ApiUrl: nat := 0
  const MenuLogin: nat := 1
  const ServerPort: nat := 5

  /** The options the first `k` entries of a registration table create. */
  function RegisteredOptions(regs: seq<(string, ConfigData)>, k: nat): (opts: seq<ConfigOption>)
    requires k <= |regs|
    ensures |opts| == k
    ensures forall i :: 0 <= i < k ==> opts[i] == ConfigOption(i, regs[i].0, regs[i].1)
  {
    seq(k, i requires 0 <= i < k => ConfigOption(i, regs[i].0, regs[i].1))
  }

  function RegisteredNames(regs: seq<(string, ConfigData)>, k: nat): set<string>
    requires k <= |regs|
  {
    set i | 0 <= i < k :: regs[i].0
  }

  predicate DistinctNames(regs: seq<(string, ConfigData)>) {
    forall i, j :: 0 <= i < j < |regs| ==> regs[i].0 != regs[j].0
  }

  /** No two registrations share a name (their lengths already differ). */
  lemma NamesDistinct()
    ensures DistinctNames(Registrations())
  {
    var r := Registrations();
    assert |r[0].0| == 7 && |r[1].0| == 10 && |r[2].0| == 18;
    assert |r[3].0| == 22 && |r[4].0| == 12 && |r[5].0| == 11;
  }

  /** The `GameConfigFile` constructor: six registrations, in order. */
  method NewGameConfig() returns (config: ConfigFile)
    ensures fresh(config) && config.Valid()
    ensures config.options == RegisteredOptions(Registrations(), |Registrations()|)
    ensures config.optionByName.Keys == RegisteredNames(Registrations(), |Registrations()|)
  {
    NamesDistinct();
    config := new ConfigFile();
    RegisterSix(config, Registrations());
  }

  /** The six `Register*Option` calls of the constructor, on a table of six
      distinct names. */
  method RegisterSix(config: ConfigFile, regs: seq<(string, ConfigData)>)
    requires |regs| == 6 && DistinctNames(regs)
    requires config.Valid() && config.options == [] && config.optionByName == map[]
    modifies config`optionByName, config`options, config`globalSection
    ensures config.Valid()
    ensures config.options == RegisteredOptions(regs, 6) && config.optionByName.Keys == RegisteredNames(regs, 6)
  {
    assert config.options == RegisteredOptions(regs, 0);
    assert config.optionByName.Keys == RegisteredNames(regs, 0);
    RegisterThree(config, regs, 0);
    RegisterThree(config, regs, 3);
  }

  method RegisterThree(config: ConfigFile, regs: seq<(string, ConfigData)>, k: nat)
    requires k + 3 <= |regs| && DistinctNames(regs) && config.Valid()
    requires config.options == RegisteredOptions(regs, k) && config.optionByName.Keys == RegisteredNames(regs, k)
    modifies config`optionByName, config`options, config`globalSection
    ensures config.Valid()
    ensures config.options == RegisteredOptions(regs, k + 3) && config.optionByName.Keys == RegisteredNames(regs, k + 3)
  {
    Register(config, regs, k);
    Register(config, regs, k + 1);
    Register(config, regs, k + 2);
  }

  /** The `k`-th registration of the constructor. */
  method Register(config: ConfigFile, regs: seq<(string, ConfigData)>, k: nat)
    requires k < |regs| && DistinctNames(regs) && config.Valid()
    requires config.options == RegisteredOptions(regs, k) && config.optionByName.Keys == RegisteredNames(regs, k)
    modifies config`optionByName, config`options, config`globalSection
    ensures config.Valid()
    ensures config.options == RegisteredOptions(regs, k + 1) && config.optionByName.Keys == RegisteredNames(regs, k + 1)
  {
    assert regs[k].0 !in RegisteredNames(regs, k);
    config.RegisterConfig(regs[k].0, regs[k].1);
    assert RegisteredNames(regs, k + 1) == RegisteredNames(regs, k) + {regs[k].0};
  }

  /** Every default passes its own option's rules: "Mingebag" is a valid login, the
      empty token is a valid token, 0.3 lies in [0, 1] and 29536 in [1, 65535]. */
  lemma DefaultsAccepted()
    ensures forall i :: 0 <= i < |Registrations()| ==> DefaultAccepted(Registrations()[i].1)
  {
    var r := Registrations();
    assert DefaultAccepted(r[1].1) by {
      assert LoginValidation(DefaultLogin) == Ok(DefaultLogin);
    }
    assert DefaultAccepted(r[4].1) by {
      assert TokenValidation("") == Ok("");
    }
    forall i | 0 <= i < |r|
      ensures DefaultAccepted(r[i].1)
    {
    }
  }

  /** "Api.Url" has no default: a file that leaves it out cannot be loaded. */
  lemma ApiUrlRequired(options: seq<ConfigOption>, missing: set<nat>, scriptRan: bool, global: LoadTable)
    requires |options| == |Registrations()| && options[ApiUrl].data == Registrations()[ApiUrl].1
    requires ApiUrl in missing
    ensures MissingWithoutDefault(options, missing)
    ensures !LoadFromFile(scriptRan, global, MissingWithoutDefault(options, missing))
  {
    assert !HasDefault(options[ApiUrl].data);
  }

  /** The port setter accepts exactly the ports 1 to 65535, and stores them as given. */
  lemma PortSetter(value: Int64)
    ensures var r := SetInteger(Registrations()[ServerPort].1, value);
            && (r.accepted <==> 1 <= value <= 0xFFFF)
            && (r.accepted ==> r.data.intValue == value)
  {
  }

  /** The login setter accepts exactly the logins of 1 to 32 characters, and stores
      them as given. */
  lemma LoginSetter(value: string)
    ensures var r := SetString(Registrations()[MenuLogin].1, value);
            && (r.accepted <==> 0 < |value| <= MaxLoginLength)
            && (r.accepted ==> r.data.stringValue == value)
  {
  }
}
