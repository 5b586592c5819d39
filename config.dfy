/** Validating the parsed configuration file: `loadConfig`'s checks, in order, over the value the
    YAML parser produced. */
module Config {
  import opened Common

  /** A parsed YAML value. `Null` stands for both `null` and `undefined`; numbers are integers. */
  datatype Value =
    | Null
    | Bool(b: bool)
    | Num(n: int)
    | Str(s: string)
    | Arr(items: seq<Value>)
    | Obj(fields: map<string, Value>)

  /** The error `loadConfig` throws. `PropertyOfNull` is the `TypeError` raised when a channel
      entry is `null`, whose `name` cannot be read. */
  datatype ConfigError =
    | TokenRequired
    | UserRequired
    | ModelRequired
    | ChannelsNonEmpty
    | ChannelFields
    | PropertyOfNull

  datatype Result<T> = Ok(value: T) | Err(error: ConfigError)

  /** The message each error carries. */
  function Message(e: ConfigError): string {
    match e
    case TokenRequired => "discord.token is required"
    case UserRequired => "discord.user is required"
    case ModelRequired => "claude.model is required"
    case ChannelsNonEmpty => "channels must be a non-empty array"
    case ChannelFields => "Each channel must have name and skill"
    case PropertyOfNull => "Cannot read properties of null (reading 'name')"
  }

  /** Every error carries its own message, so the text thrown tells which check failed. */
  lemma MessagesDistinct(a: ConfigError, b: ConfigError)
    ensures Message(a) == Message(b) ==> a == b
  {
  }

  /** JavaScript truthiness. */
  predicate Truthy(v: Value) {
    match v
    case Null => false
    case Bool(b) => b
    case Num(n) => n != 0
    case Str(s) => s != ""
    case Arr(_) => true
    case Obj(_) => true
  }

  /** Optional property access `v?.key`: the field of an object, `undefined` for anything else. */
  function Get(v: Value, key: string): Value {
    if v.Obj? && key in v.fields then v.fields[key] else Null
  }

  // ---------------------------------------------------------------------------------------
  // The channel loop

  /** A channel entry passes when its `name` is truthy and its `skill` is a string. */
  predicate ChannelOk(ch: Value) {
    Truthy(Get(ch, "name")) && Get(ch, "skill").Str?
  }

  /** The `for` loop over the channels: the error of the first bad entry, if any. Reading a
      property of `null` throws before the check can fail. */
  function CheckChannels(chs: seq<Value>): (r: Option<ConfigError>)
    ensures r.None? || r == Some(ChannelFields) || r == Some(PropertyOfNull)
    decreases |chs|
  {
    if |chs| == 0 then None
    else if chs[0].Null? then Some(PropertyOfNull)
    else if !ChannelOk(chs[0]) then Some(ChannelFields)
    else CheckChannels(chs[1..])
  }

  /** `loadConfig` after parsing: each check in turn; the first that fails gives the error, and
      when none fails the parsed data comes back unchanged. */
  function LoadConfig(data: Value): (r: Result<Value>)
    ensures r.Ok? ==> r.value == data
  {
    var discord := Get(data, "discord");
    var channels := Get(data, "channels");
    if !Truthy(Get(discord, "token")) then Err(TokenRequired)
    else if !Truthy(Get(discord, "user")) then Err(UserRequired)
    else if !Truthy(Get(Get(data, "claude"), "model")) then Err(ModelRequired)
    else if !channels.Arr? || |channels.items| == 0 then Err(ChannelsNonEmpty)
    else
      var bad := CheckChannels(channels.items);
      if bad.Some? then Err(bad.value) else Ok(data)
  }

  // ---------------------------------------------------------------------------------------
  // What the checks mean

  /** The first bad channel entry decides the error; before it every entry passes. */
  lemma {:induction false} FirstBadChannel(chs: seq<Value>)
    ensures CheckChannels(chs).None? <==> forall k :: 0 <= k < |chs| ==> ChannelOk(chs[k])
    ensures CheckChannels(chs).Some? ==>
              exists k :: 0 <= k < |chs| && !ChannelOk(chs[k]) && (forall j :: 0 <= j < k ==> ChannelOk(chs[j]))
                          && CheckChannels(chs) == Some(if chs[k].Null? then PropertyOfNull else ChannelFields)
    decreases |chs|
  {
    if |chs| > 0 {
      assert ChannelOk(chs[0]) ==> !chs[0].Null?;
      if !chs[0].Null? && ChannelOk(chs[0]) {
        var rest := chs[1..];
        FirstBadChannel(rest);
        assert forall k :: 1 <= k < |chs| ==> chs[k] == rest[k - 1];
        if CheckChannels(rest).Some? {
          var k :| 0 <= k < |rest| && !ChannelOk(rest[k]) && (forall j :: 0 <= j < k ==> ChannelOk(rest[j]))
                   && CheckChannels(rest) == Some(if rest[k].Null? then PropertyOfNull else ChannelFields);
          assert chs[k + 1] == rest[k];
        }
      }
    }
  }

  /** A configuration `loadConfig` accepts, stated without the order of the checks. */
  predicate Valid(data: Value) {
    var channels := Get(data, "channels");
    && Truthy(Get(Get(data, "discord"), "token"))
    && Truthy(Get(Get(data, "discord"), "user"))
    && Truthy(Get(Get(data, "claude"), "model"))
    && channels.Arr? && |channels.items| > 0
    && (forall k :: 0 <= k < |channels.items| ==> ChannelOk(channels.items[k]))
  }

  /** `loadConfig` succeeds exactly on valid data. */
  lemma AcceptsValid(data: Value)
    ensures LoadConfig(data).Ok? <==> Valid(data)
  {
    var channels := Get(data, "channels");
    if channels.Arr? {
      FirstBadChannel(channels.items);
    }
  }

  /** The checks run in order: each error means that every earlier check passed. */
  lemma ChecksInOrder(data: Value)
    ensures LoadConfig(data) == Err(TokenRequired) <==> !Truthy(Get(Get(data, "discord"), "token"))
    ensures LoadConfig(data) == Err(UserRequired) <==>
              Truthy(Get(Get(data, "discord"), "token")) && !Truthy(Get(Get(data, "discord"), "user"))
    ensures LoadConfig(data) == Err(ModelRequired) <==>
              Truthy(Get(Get(data, "discord"), "token")) && Truthy(Get(Get(data, "discord"), "user"))
              && !Truthy(Get(Get(data, "claude"), "model"))
    ensures var channels := Get(data, "channels");
            LoadConfig(data) == Err(ChannelsNonEmpty) <==>
              Truthy(Get(Get(data, "discord"), "token")) && Truthy(Get(Get(data, "discord"), "user"))
              && Truthy(Get(Get(data, "claude"), "model")) && !(channels.Arr? && |channels.items| > 0)
  {
  }

  /** A channel without a string skill is refused even when its name is set, and the empty
      skill is a string. */
  lemma SkillMustBeString(name: string, skill: Value)
    requires name != ""
    ensures ChannelOk(Obj(map["name" := Str(name), "skill" := skill])) <==> skill.Str?
    ensures ChannelOk(Obj(map["name" := Str(name), "skill" := Str("")]))
  {
  }
}
