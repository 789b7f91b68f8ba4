/** Configuration and access control for the Telegram bot
    (computer-use-demo/computer_use_demo/config.py).

    The process environment is a map from variable names to values; loading
    the `.env` file and logging are outside the model. `init_config` reads
    the map and, on success, writes WIDTH and HEIGHT back into it. */
module BotConfig {
  import opened Wrappers
  import opened Text

  type Env = map<string, string>

  const TokenVar: string := "TELEGRAM_BOT_TOKEN"
  const OwnerVar: string := "TELEGRAM_OWNER_ID"
  const AllowedVar: string := "TELEGRAM_ALLOWED_USERS"
  const WidthVar: string := "WIDTH"
  const HeightVar: string := "HEIGHT"
  const ProviderVar: string := "API_PROVIDER"

  const DefaultWidth: string := "1024"
  const DefaultHeight: string := "768"
  const DefaultProvider: string := "anthropic"

  const TokenNotSet: string := "TELEGRAM_BOT_TOKEN environment variable not set"
  const OwnerNotSet: string := "TELEGRAM_OWNER_ID environment variable not set"

  /** The ValueError `int()` raises on text that is not an integer. */
  function InvalidLiteral(s: string): string
  {
    "invalid literal for int() with base 10: '" + s + "'"
  }

  /** `os.getenv(name, default)`. */
  function GetEnv(env: Env, name: string, default: string): string
  {
    if name in env then env[name] else default
  }

  /** The dictionary `init_config` returns. */
  datatype BotSettings = BotSettings(
    telegramToken: string,
    ownerId: int,
    allowedUsers: set<int>,
    width: string,
    height: string,
    apiProvider: string)

  /** `pieces[i]` is the first piece `int()` refuses, and `error` names it. */
  predicate FirstRefused(pieces: seq<string>, i: int, error: string)
  {
    && 0 <= i < |pieces| && ParseInt(pieces[i]).None? && error == InvalidLiteral(pieces[i])
    && forall j | 0 <= j < i :: ParseInt(pieces[j]).Some?
  }

  /** `ids` holds exactly the values of the pieces that parse. */
  ghost predicate IdsOf(pieces: seq<string>, ids: set<int>)
  {
    forall x :: x in ids <==> exists i | 0 <= i < |pieces| :: ParseInt(pieces[i]) == Some(x)
  }

  lemma IdsOfCons(pieces: seq<string>, x: int, rest: set<int>)
    requires |pieces| > 0 && ParseInt(pieces[0]) == Some(x) && IdsOf(pieces[1..], rest)
    ensures IdsOf(pieces, {x} + rest)
  {
    assert forall i | 1 <= i < |pieces| :: pieces[i] == pieces[1..][i - 1];
    assert forall y :: (exists i | 0 <= i < |pieces[1..]| :: ParseInt(pieces[1..][i]) == Some(y)) ==>
      (exists i | 0 <= i < |pieces| :: ParseInt(pieces[i]) == Some(y));
  }

  /** `set(map(int, pieces))`: the first piece `int()` refuses raises. */
  function ParseIds(pieces: seq<string>): (r: Result<set<int>, string>)
    ensures r.Success? <==> forall i | 0 <= i < |pieces| :: ParseInt(pieces[i]).Some?
    ensures r.Success? ==> IdsOf(pieces, r.value)
    ensures r.Failure? ==> exists i :: FirstRefused(pieces, i, r.error)
  {
    if pieces == [] then Success({})
    else
      match ParseInt(pieces[0])
      case None =>
        assert FirstRefused(pieces, 0, InvalidLiteral(pieces[0]));
        Failure(InvalidLiteral(pieces[0]))
      case Some(x) =>
        var rest := ParseIds(pieces[1..]);
        assert forall i | 1 <= i < |pieces| :: pieces[i] == pieces[1..][i - 1];
        if rest.Failure? then
          RefusedLater(pieces, rest.error);
          rest
        else
          IdsOfCons(pieces, x, rest.value);
          Success({x} + rest.value)
  }

  /** A refusal after a piece that parses is the first refusal of the
      whole sequence too. */
  lemma RefusedLater(pieces: seq<string>, error: string)
    requires |pieces| > 0 && ParseInt(pieces[0]).Some?
    requires exists k :: FirstRefused(pieces[1..], k, error)
    ensures exists i :: FirstRefused(pieces, i, error)
  {
    var k :| FirstRefused(pieces[1..], k, error);
    assert pieces[k + 1] == pieces[1..][k];
    assert forall j | 1 <= j <= k :: pieces[j] == pieces[1..][j - 1];
    assert FirstRefused(pieces, k + 1, error);
  }

  /** `init_config`: the token must be set and non-empty, the owner id must
      parse and be non-zero, and the allowed users, when the variable is set
      and non-empty, are the comma-separated ids. On success the returned
      environment also carries WIDTH and HEIGHT. */
  function InitConfig(env: Env): (r: Result<(BotSettings, Env), string>)
    ensures (TokenVar !in env || env[TokenVar] == "") ==> r == Failure(TokenNotSet)
    ensures TokenVar in env && env[TokenVar] != "" && ParseInt(GetEnv(env, OwnerVar, "0")).None? ==>
      r == Failure(InvalidLiteral(GetEnv(env, OwnerVar, "0")))
    ensures TokenVar in env && env[TokenVar] != "" && ParseInt(GetEnv(env, OwnerVar, "0")) == Some(0) ==>
      r == Failure(OwnerNotSet)
    ensures r.Success? ==>
      var (s, env') := r.value;
      && TokenVar in env && s.telegramToken == env[TokenVar] != ""
      && ParseInt(GetEnv(env, OwnerVar, "0")) == Some(s.ownerId) && s.ownerId != 0
      && (AllowedVar !in env || env[AllowedVar] == "" ==> s.allowedUsers == {})
      && s.width == GetEnv(env, WidthVar, DefaultWidth)
      && s.height == GetEnv(env, HeightVar, DefaultHeight)
      && s.apiProvider == GetEnv(env, ProviderVar, DefaultProvider)
      && env' == env[WidthVar := s.width][HeightVar := s.height]
    ensures r.Success? && AllowedVar in env && env[AllowedVar] != "" ==>
      ParseIds(Split(env[AllowedVar], ',')) == Success(r.value.0.allowedUsers)
  {
    if TokenVar !in env || env[TokenVar] == "" then Failure(TokenNotSet)
    else
      var ownerText := GetEnv(env, OwnerVar, "0");
      match ParseInt(ownerText)
      case None => Failure(InvalidLiteral(ownerText))
      case Some(owner) =>
        if owner == 0 then Failure(OwnerNotSet)
        else
          var allowed :-
            if AllowedVar in env && env[AllowedVar] != "" then ParseIds(Split(env[AllowedVar], ','))
            else Success({});
          var width := GetEnv(env, WidthVar, DefaultWidth);
          var height := GetEnv(env, HeightVar, DefaultHeight);
          var provider := GetEnv(env, ProviderVar, DefaultProvider);
          Success((BotSettings(env[TokenVar], owner, allowed, width, height, provider),
                   env[WidthVar := width][HeightVar := height]))
  }

  /** `AccessControl`: the owner and the allow-list are fixed at construction. */
  datatype AccessControl = AccessControl(ownerId: int, allowedUsers: set<int>)
  {
    /** `check_access`: the owner first, then an empty list admits everyone,
        then membership decides. */
    function CheckAccess(userId: int): (granted: bool)
      ensures userId == ownerId ==> granted
      ensures allowedUsers == {} ==> granted
      ensures userId != ownerId && allowedUsers != {} ==> (granted <==> userId in allowedUsers)
    {
      if userId == ownerId then true
      else if allowedUsers == {} then true
      else userId in allowedUsers
    }
  }

  /** No comma anywhere in `p`. */
  predicate CommaFree(p: string)
  {
    forall j | 0 <= j < |p| :: p[j] != ','
  }

  /** Splitting a comma-joined list gives the pieces back when none of them
      holds a comma. */
  lemma {:induction false} SplitJoin(pieces: seq<string>)
    requires pieces != []
    requires forall i | 0 <= i < |pieces| :: CommaFree(pieces[i])
    ensures Split(Join(pieces, ","), ',') == pieces
    decreases |pieces|
  {
    var p := pieces[0];
    if |pieces| == 1 {
      assert Join(pieces, ",") == p;
      FieldEndWhole(p);
    } else {
      var rest := Join(pieces[1..], ",");
      var s := p + "," + rest;
      assert Join(pieces, ",") == s;
      FieldEndPrefix(p, rest);
      assert s[|p| + 1..] == rest;
      assert s[..|p|] == p;
      assert Split(s, ',') == [p] + Split(rest, ',');
      assert forall i | 0 <= i < |pieces[1..]| :: pieces[1..][i] == pieces[i + 1];
      SplitJoin(pieces[1..]);
      assert pieces == [p] + pieces[1..];
    }
  }

  lemma FieldEndWhole(p: string)
    requires CommaFree(p)
    ensures FieldEnd(p, ',') == |p|
  {
  }

  lemma FieldEndPrefix(p: string, rest: string)
    requires CommaFree(p)
    ensures FieldEnd(p + "," + rest, ',') == |p|
  {
    var s := p + "," + rest;
    assert s[|p|] == ',';
    assert forall j | 0 <= j < |p| :: s[j] == p[j];
  }

  /** The comma-joined decimal ids parse back to the set of those ids. */
  lemma ParseJoinedIds(users: seq<int>)
    requires users != []
    ensures var pieces := seq(|users|, i requires 0 <= i < |users| => IntToString(users[i]));
      && Join(pieces, ",") != ""
      && ParseIds(Split(Join(pieces, ","), ',')) == Success(set u | u in users)
  {
    var pieces := seq(|users|, i requires 0 <= i < |users| => IntToString(users[i]));
    forall i | 0 <= i < |pieces|
      ensures CommaFree(pieces[i]) && ParseInt(pieces[i]) == Some(users[i])
    {
      NoCommaInInt(users[i]);
      ParseIntToString(users[i]);
    }
    NoCommaInInt(users[0]);
    JoinLength(pieces);
    SplitJoin(pieces);
    var r := ParseIds(pieces);
    assert r.Success?;
    forall x
      ensures x in r.value <==> x in users
    {
      if x in users {
        var i :| 0 <= i < |users| && users[i] == x;
        assert ParseInt(pieces[i]) == Some(x);
      }
    }
    assert r.value == set u | u in users;
  }

  /** An environment written by a deployment script: a token, a non-zero
      owner printed as decimal, and an allow-list printed as comma-joined
      decimals, is read back as exactly those values. */
  lemma InitConfigReadsBack(env: Env, token: string, owner: int, users: seq<int>)
    requires token != "" && owner != 0 && users != []
    requires env == map[TokenVar := token, OwnerVar := IntToString(owner),
                         AllowedVar := Join(seq(|users|, i requires 0 <= i < |users| => IntToString(users[i])), ",")]
    ensures InitConfig(env).Success?
    ensures InitConfig(env).value.0 == BotSettings(token, owner, (set u | u in users), DefaultWidth, DefaultHeight, DefaultProvider)
  {
    var allowed := Join(seq(|users|, i requires 0 <= i < |users| => IntToString(users[i])), ",");
    ParseIntToString(owner);
    ParseJoinedIds(users);
    WrittenEnv(token, IntToString(owner), allowed);
    InitConfigAllowList(env, owner, set u | u in users);
  }

  /** The three variables the deployment writes read back, and the display
      and provider variables are absent. */
  lemma WrittenEnv(token: string, owner: string, allowed: string)
    ensures var env := map[TokenVar := token, OwnerVar := owner, AllowedVar := allowed];
      && TokenVar in env && env[TokenVar] == token
      && GetEnv(env, OwnerVar, "0") == owner
      && AllowedVar in env && env[AllowedVar] == allowed
      && GetEnv(env, WidthVar, DefaultWidth) == DefaultWidth
      && GetEnv(env, HeightVar, DefaultHeight) == DefaultHeight
      && GetEnv(env, ProviderVar, DefaultProvider) == DefaultProvider
  {
    assert TokenVar != OwnerVar && OwnerVar != AllowedVar && AllowedVar != TokenVar;
    assert WidthVar != TokenVar && WidthVar != OwnerVar && WidthVar != AllowedVar;
    assert HeightVar != TokenVar && HeightVar != OwnerVar && HeightVar != AllowedVar;
    assert ProviderVar != TokenVar && ProviderVar != OwnerVar && ProviderVar != AllowedVar;
  }

  /** With a token, a non-zero owner and an allow-list that parses, the
      settings hold exactly those, and the display and provider variables
      read with their defaults. */
  lemma InitConfigAllowList(env: Env, owner: int, allowed: set<int>)
    requires TokenVar in env && env[TokenVar] != ""
    requires ParseInt(GetEnv(env, OwnerVar, "0")) == Some(owner) && owner != 0
    requires AllowedVar in env && env[AllowedVar] != ""
    requires ParseIds(Split(env[AllowedVar], ',')) == Success(allowed)
    ensures InitConfig(env).Success?
    ensures InitConfig(env).value.0 == BotSettings(env[TokenVar], owner, allowed,
      GetEnv(env, WidthVar, DefaultWidth), GetEnv(env, HeightVar, DefaultHeight), GetEnv(env, ProviderVar, DefaultProvider))
  {
  }

  lemma NoCommaInInt(i: int)
    ensures |IntToString(i)| > 0
    ensures CommaFree(IntToString(i))
  {
    NoCommaInNat(if i < 0 then -i else i);
  }

  lemma {:induction false} NoCommaInNat(n: nat)
    ensures |NatToString(n)| > 0
    ensures CommaFree(NatToString(n))
    decreases n
  {
    if n >= 10 {
      NoCommaInNat(n / 10);
    }
  }

  lemma {:induction false} JoinLength(pieces: seq<string>)
    requires pieces != []
    ensures |Join(pieces, ",")| >= |pieces[0]|
    decreases |pieces|
  {
    if |pieces| > 1 {
      JoinLength(pieces[1..]);
    }
  }

  /** A deployment without an allow-list admits every user, and one with a
      list admits the owner and the listed users and nobody else. */
  lemma ConfiguredAccess(env: Env, userId: int)
    requires InitConfig(env).Success?
    ensures var s := InitConfig(env).value.0;
      var ac := AccessControl(s.ownerId, s.allowedUsers);
      && (AllowedVar !in env || env[AllowedVar] == "" ==> ac.CheckAccess(userId))
      && (ac.CheckAccess(userId) <==> userId == s.ownerId || s.allowedUsers == {} || userId in s.allowedUsers)
  {
  }
}
