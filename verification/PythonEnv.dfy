/** buildPythonEnv of internal/process/manager.go: a base environment parsed into a map, overlaid with
    nine keys and printed again. */
module PythonEnv {
  import opened Prelude

  type Env = map<string, string>

  datatype Bot = Bot(id: string, exchangeType: string, tradingPair: string, testnet: bool, params: string)

  /** Where strings.SplitN(item, "=", 2) splits: at the first '=', or nowhere. */
  function SplitAt(item: string): (n: nat)
    ensures n <= |item|
    ensures forall i :: 0 <= i < n ==> item[i] != '='
    ensures n < |item| ==> item[n] == '='
  {
    if item == "" || item[0] == '=' then 0
    else SplitAt(item[1..]) + 1
  }

  function KeyOf(item: string): string {
    item[..SplitAt(item)]
  }

  function ValueOf(item: string): string {
    if SplitAt(item) < |item| then item[SplitAt(item) + 1..] else ""
  }

  /** A list of items read as an environment: each item split at its first '=', the last one for a key
      counts. */
  function Parse(items: seq<string>): Env {
    if items == [] then map[]
    else
      var item := items[|items| - 1];
      Parse(items[..|items| - 1])[KeyOf(item) := ValueOf(item)]
  }

  function NormalizedParams(params: string): string {
    if TrimSpace(params) == "" then "{}" else params
  }

  function PythonPath(env: Env, sdkDir: string, separator: char): string {
    var existing := TrimSpace(if "PYTHONPATH" in env then env["PYTHONPATH"] else "");
    if existing != "" then sdkDir + [separator] + existing else sdkDir
  }

  /** The nine injected keys. */
  function Injected(env: Env, sdkDir: string, botDir: string, bot: Bot, apiKey: string, secret: string,
                    separator: char): Env {
    map[
      "PYTHONPATH" := PythonPath(env, sdkDir, separator),
      "CLAWQUANT_BOT_ID" := bot.id,
      "CLAWQUANT_EXCHANGE_TYPE" := bot.exchangeType,
      "CLAWQUANT_API_KEY" := apiKey,
      "CLAWQUANT_SECRET" := secret,
      "CLAWQUANT_TRADING_PAIR" := bot.tradingPair,
      "CLAWQUANT_PARAMS" := NormalizedParams(bot.params),
      "CLAWQUANT_DATA_DIR" := botDir,
      "CLAWQUANT_TESTNET" := if bot.testnet then "1" else "0"
    ]
  }

  const OWN_KEYS := {
    "PYTHONPATH", "CLAWQUANT_BOT_ID", "CLAWQUANT_EXCHANGE_TYPE", "CLAWQUANT_API_KEY", "CLAWQUANT_SECRET",
    "CLAWQUANT_TRADING_PAIR", "CLAWQUANT_PARAMS", "CLAWQUANT_DATA_DIR", "CLAWQUANT_TESTNET"
  }

  ghost predicate DistinctKeys(items: seq<string>) {
    forall i, j :: 0 <= i < j < |items| ==> KeyOf(items[i]) != KeyOf(items[j])
  }

  ghost predicate KeysHaveNoEquals(env: Env) {
    forall k :: k in env ==> '=' !in k
  }

  /** Printing and splitting again gives back key and value, for every value. */
  lemma {:induction false} SplitPrinted(key: string, value: string)
    requires '=' !in key
    ensures KeyOf(key + "=" + value) == key && ValueOf(key + "=" + value) == value
  {
    var item := key + "=" + value;
    assert item[|key|] == '=';
    assert forall i :: 0 <= i < |key| ==> item[i] == key[i];
    assert SplitAt(item) == |key|;
    assert item[..|key|] == key && item[|key| + 1..] == value;
  }

  predicate ItemHas(items: seq<string>, i: nat, key: string) {
    i < |items| && KeyOf(items[i]) == key
  }

  predicate LastWith(items: seq<string>, i: nat, key: string) {
    ItemHas(items, i, key) && forall j :: i < j < |items| ==> KeyOf(items[j]) != key
  }

  /** Parse is what it says: a key is there if some item has it, with the value of the last such item. */
  lemma {:induction false} ParseIsLastWins(items: seq<string>, key: string)
    ensures key in Parse(items) <==> exists i: nat :: ItemHas(items, i, key)
    ensures forall i: nat :: LastWith(items, i, key) ==> key in Parse(items) && Parse(items)[key] == ValueOf(items[i])
  {
    if items != [] {
      var n := |items| - 1;
      var front := items[..n];
      ParseIsLastWins(front, key);
      FrontItems(items, key);
      if KeyOf(items[n]) == key {
        assert ItemHas(items, n, key);
      } else if i: nat :| ItemHas(front, i, key) {
        assert ItemHas(items, i, key);
      }
    }
  }

  lemma FrontItems(items: seq<string>, key: string)
    requires items != []
    ensures var n := |items| - 1;
            && (forall i: nat :: ItemHas(items, i, key) ==>
                  ItemHas(items[..n], i, key) || (i == n && KeyOf(items[n]) == key))
            && (forall i: nat :: ItemHas(items[..n], i, key) ==> ItemHas(items, i, key))
            && (forall i: nat :: LastWith(items, i, key) ==>
                  if KeyOf(items[n]) == key then i == n else LastWith(items[..n], i, key))
  {
  }

  lemma {:induction false} ParseKeys(items: seq<string>)
    ensures KeysHaveNoEquals(Parse(items))
  {
    if items != [] {
      ParseKeys(items[..|items| - 1]);
    }
  }

  lemma ParseAppend(items: seq<string>, item: string)
    ensures Parse(items + [item]) == Parse(items)[KeyOf(item) := ValueOf(item)]
  {
    assert (items + [item])[..|items|] == items;
  }

  /** The first loop: the base environment as a map. */
  method ReadBase(baseEnv: seq<string>) returns (env: Env)
    ensures env == Parse(baseEnv)
  {
    env := map[];
    for i := 0 to |baseEnv|
      invariant env == Parse(baseEnv[..i])
    {
      var n := SplitAt(baseEnv[i]);
      var value := "";
      if n < |baseEnv[i]| {
        value := baseEnv[i][n + 1..];
      }
      ParseAppend(baseEnv[..i], baseEnv[i]);
      assert baseEnv[..i + 1] == baseEnv[..i] + [baseEnv[i]];
      env := env[baseEnv[i][..n] := value];
    }
    assert baseEnv[..|baseEnv|] == baseEnv;
  }

  /** The nine assignments. */
  method Overlay(base: Env, sdkDir: string, botDir: string, bot: Bot, apiKey: string, secret: string, separator: char)
    returns (env: Env)
    ensures env == base + Injected(base, sdkDir, botDir, bot, apiKey, secret, separator)
  {
    var pythonPath := sdkDir;
    var existing := TrimSpace(if "PYTHONPATH" in base then base["PYTHONPATH"] else "");
    if existing != "" {
      pythonPath := sdkDir + [separator] + existing;
    }
    env := base["PYTHONPATH" := pythonPath];
    env := env["CLAWQUANT_BOT_ID" := bot.id];
    env := env["CLAWQUANT_EXCHANGE_TYPE" := bot.exchangeType];
    env := env["CLAWQUANT_API_KEY" := apiKey];
    env := env["CLAWQUANT_SECRET" := secret];
    env := env["CLAWQUANT_TRADING_PAIR" := bot.tradingPair];
    env := env["CLAWQUANT_PARAMS" := NormalizedParams(bot.params)];
    env := env["CLAWQUANT_DATA_DIR" := botDir];
    env := env["CLAWQUANT_TESTNET" := if bot.testnet then "1" else "0"];
  }

  lemma InjectedKeys(env: Env, sdkDir: string, botDir: string, bot: Bot, apiKey: string, secret: string,
                     separator: char)
    requires KeysHaveNoEquals(env)
    ensures KeysHaveNoEquals(env + Injected(env, sdkDir, botDir, bot, apiKey, secret, separator))
  {
    var injected := Injected(env, sdkDir, botDir, bot, apiKey, secret, separator);
    assert KeysHaveNoEquals(injected);
  }

  /** The keys in whatever order the map gives them. */
  method CollectKeys(env: Env) returns (keys: seq<string>)
    ensures forall k :: k in keys <==> k in env
    ensures forall i, j :: 0 <= i < j < |keys| ==> keys[i] != keys[j]
  {
    keys := [];
    var rest := env.Keys;
    while rest != {}
      invariant rest <= env.Keys
      invariant forall k :: k in keys <==> k in env && k !in rest
      invariant forall i, j :: 0 <= i < j < |keys| ==> keys[i] != keys[j]
      decreases rest
    {
      var key :| key in rest;
      keys := keys + [key];
      rest := rest - {key};
    }
  }

  /** One item per key. */
  function Printed(env: Env, keys: seq<string>): (items: seq<string>)
    requires forall k :: k in keys ==> k in env
    ensures |items| == |keys|
  {
    seq(|keys|, i requires 0 <= i < |keys| => assert keys[i] in keys; keys[i] + "=" + env[keys[i]])
  }

  lemma {:induction false} PrintedParses(env: Env, keys: seq<string>)
    requires KeysHaveNoEquals(env) && (forall k :: k in keys ==> k in env)
    ensures forall i :: 0 <= i < |keys| ==> KeyOf(Printed(env, keys)[i]) == keys[i]
    ensures Parse(Printed(env, keys)) == map k | k in keys :: env[k]
  {
    if keys != [] {
      var n := |keys| - 1;
      var front := keys[..n];
      assert keys == front + [keys[n]];
      PrintedParses(env, front);
      SplitPrinted(keys[n], env[keys[n]]);
      assert Printed(env, keys) == Printed(env, front) + [keys[n] + "=" + env[keys[n]]];
      ParseAppend(Printed(env, front), keys[n] + "=" + env[keys[n]]);
    }
  }

  /** Printing an environment key by key and reading it back changes nothing. */
  lemma PrintedRoundTrip(env: Env, keys: seq<string>)
    requires KeysHaveNoEquals(env)
    requires forall k :: k in keys <==> k in env
    requires forall i, j :: 0 <= i < j < |keys| ==> keys[i] != keys[j]
    ensures DistinctKeys(Printed(env, keys)) && Parse(Printed(env, keys)) == env
  {
    PrintedParses(env, keys);
    assert (map k | k in keys :: env[k]) == env;
  }

  /** The last loop. */
  method Print(env: Env, keys: seq<string>) returns (result: seq<string>)
    requires forall k :: k in keys ==> k in env
    ensures result == Printed(env, keys)
  {
    result := [];
    for i := 0 to |keys|
      invariant result == Printed(env, keys)[..i]
    {
      assert keys[i] in keys;
      result := result + [keys[i] + "=" + env[keys[i]]];
    }
  }

  /** What a child finds under PYTHONPATH: the SDK directory, and after it what the base had there, trimmed. */
  predicate IsPythonPath(path: string, base: Env, sdkDir: string, separator: char) {
    if "PYTHONPATH" in base && !AllSpace(base["PYTHONPATH"])
    then path == sdkDir + [separator] + TrimSpace(base["PYTHONPATH"])
    else path == sdkDir
  }

  /** env is the base environment with the nine keys set, each to its own value, and nothing else changed. */
  predicate IsChildEnv(env: Env, base: Env, sdkDir: string, botDir: string, bot: Bot, apiKey: string, secret: string,
                       separator: char) {
    && env.Keys == base.Keys + OWN_KEYS
    && (forall key :: key in base && key !in OWN_KEYS ==> env[key] == base[key])
    && IsPythonPath(env["PYTHONPATH"], base, sdkDir, separator)
    && env["CLAWQUANT_BOT_ID"] == bot.id
    && env["CLAWQUANT_EXCHANGE_TYPE"] == bot.exchangeType
    && env["CLAWQUANT_API_KEY"] == apiKey
    && env["CLAWQUANT_SECRET"] == secret
    && env["CLAWQUANT_TRADING_PAIR"] == bot.tradingPair
    && env["CLAWQUANT_PARAMS"] == (if AllSpace(bot.params) then "{}" else bot.params)
    && env["CLAWQUANT_DATA_DIR"] == botDir
    && env["CLAWQUANT_TESTNET"] == (if bot.testnet then "1" else "0")
  }

  lemma OverlayIsChildEnv(base: Env, sdkDir: string, botDir: string, bot: Bot, apiKey: string, secret: string,
                          separator: char)
    ensures IsChildEnv(base + Injected(base, sdkDir, botDir, bot, apiKey, secret, separator),
                       base, sdkDir, botDir, bot, apiKey, secret, separator)
  {
    BlankIff(bot.params);
    BlankIff(if "PYTHONPATH" in base then base["PYTHONPATH"] else "");
    var injected := Injected(base, sdkDir, botDir, bot, apiKey, secret, separator);
    assert injected.Keys == OWN_KEYS;
  }

  /** For every base list: the printed items have distinct keys, and reading them back gives the environment
      the child is meant to have. */
  method BuildPythonEnv(baseEnv: seq<string>, sdkDir: string, botDir: string, bot: Bot, apiKey: string,
                        secret: string, separator: char)
    returns (result: seq<string>)
    ensures DistinctKeys(result)
    ensures IsChildEnv(Parse(result), Parse(baseEnv), sdkDir, botDir, bot, apiKey, secret, separator)
  {
    var base := ReadBase(baseEnv);
    OverlayIsChildEnv(base, sdkDir, botDir, bot, apiKey, secret, separator);
    ParseKeys(baseEnv);
    InjectedKeys(base, sdkDir, botDir, bot, apiKey, secret, separator);
    var env := Overlay(base, sdkDir, botDir, bot, apiKey, secret, separator);
    var keys := CollectKeys(env);
    result := Print(env, keys);
    PrintedRoundTrip(env, keys);
  }
}
