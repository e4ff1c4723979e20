/**
 * The pure part of the LinkedIn strategy (lib/omniauth/strategies/linkedin.rb):
 * the rewrite of the requested field list, the profile request path, the
 * display name, and the `uid`, `info` and `extra` blocks, each computed from
 * the already fetched and parsed profile and the configured `api_version`.
 */
module LinkedInProfile {
  import opened Wrappers
  import opened RubyText

  /** The parsed profile document: a JSON object whose members are strings.
      A key that is absent reads as Ruby's `nil`. */
  type Profile = map<string, string>

  /** The `api_version` option as the strategy reads it: `"v1"`, `"v2"`, or
      any other string, which only the comparisons against those two see. */
  datatype ApiVersion = V1 | V2 | Other(name: string)

  /** Classifies the configured `api_version` string. */
  function ParseVersion(option: string): (v: ApiVersion)
    ensures v == V1 <==> option == "v1"
    ensures v == V2 <==> option == "v2"
    ensures v.Other? ==> v.name == option
  {
    if option == "v1" then V1 else if option == "v2" then V2 else Other(option)
  }

  /** The exceptions the strategy can raise. `NoMethodError` is what Ruby raises
      when `raw_info` is `nil` and is indexed with `[]`. */
  datatype Error = ArgumentError(message: string) | NoMethodError

  /** The message of the `ArgumentError` raised for an unsupported `api_version`. */
  const UnexpectedVersionPrefix: string := "Unexpected value for api_version option: "

  /** The message names the offending option value after a fixed prefix. */
  function UnexpectedVersionMessage(option: string): (m: string)
    ensures |m| == |UnexpectedVersionPrefix| + |option|
    ensures m[..|UnexpectedVersionPrefix|] == UnexpectedVersionPrefix
    ensures m[|UnexpectedVersionPrefix|..] == option
  {
    UnexpectedVersionPrefix + option
  }

  /** `raw_info[key]`: the member's value, or `nil` when it is absent. */
  function Get(raw: Profile, key: string): (r: Option<string>)
    ensures r.Some? <==> key in raw
    ensures r.Some? ==> r.value == raw[key]
  {
    if key in raw then Some(raw[key]) else None
  }

  /** `"#{v}"`: string interpolation, in which `nil` becomes the empty string. */
  function Interpolate(v: Option<string>): (r: string)
    ensures v.Some? ==> r == v.value
    ensures r == "" <==> v.None? || v.value == ""
  {
    match v
    case None => ""
    case Some(s) => s
  }

  // ---------------------------------------------------------------------
  // option_fields: the secure-image rewrite of the field list
  // ---------------------------------------------------------------------

  const PictureUrl: string := "picture-url"
  const SecurePictureUrl: string := "picture-url;secure=true"

  /** The default `fields` option. */
  const DefaultFields: seq<string> := ["id", "email-address", "first-name", "last-name", "headline",
                                       "location", "industry", "picture-url", "public-profile-url"]

  /** With `secure_image_url` set, the default list changes at one place only:
      its eighth entry, `"picture-url"`, becomes `"picture-url;secure=true"`. */
  lemma DefaultFieldsSecureRewrite()
    ensures |RewriteFields(DefaultFields, true)| == |DefaultFields| == 9
    ensures RewriteFields(DefaultFields, true)[7] == SecurePictureUrl
    ensures forall i :: 0 <= i < 9 && i != 7 ==> RewriteFields(DefaultFields, true)[i] == DefaultFields[i]
  {
    var r := RewriteFields(DefaultFields, true);
    assert DefaultFields[7] == PictureUrl;
    forall i | 0 <= i < 9 && i != 7 ensures r[i] == DefaultFields[i] {
      assert DefaultFields[i] != PictureUrl;
    }
  }

  /** The block given to `map!`: only `"picture-url"` is replaced, and the
      result is never `"picture-url"`. */
  function SecureField(f: string): (r: string)
    ensures f != PictureUrl ==> r == f
    ensures r != PictureUrl
    ensures r == SecurePictureUrl <==> f == PictureUrl || f == SecurePictureUrl
  {
    if f == PictureUrl then SecurePictureUrl else f
  }

  /** The field list `option_fields` leaves behind: with `secure_image_url` set,
      every `"picture-url"` is replaced by `"picture-url;secure=true"` and
      every other entry is kept in place; otherwise the list is untouched. */
  function RewriteFields(fields: seq<string>, secure: bool): (r: seq<string>)
    ensures |r| == |fields|
    ensures forall i :: 0 <= i < |fields| ==>
              r[i] == (if secure && fields[i] == PictureUrl then SecurePictureUrl else fields[i])
    ensures secure ==> PictureUrl !in r
    ensures !secure ==> r == fields
  {
    if secure then seq(|fields|, i requires 0 <= i < |fields| => SecureField(fields[i])) else fields
  }

  /** `map!` writes the rewritten list back into `options.fields`, so the
      rewrite runs again on its own output at every later fetch; it is
      idempotent, so those later runs change nothing. */
  lemma RewriteFieldsIdempotent(fields: seq<string>, secure: bool)
    ensures RewriteFields(RewriteFields(fields, secure), secure) == RewriteFields(fields, secure)
  {
  }

  // ---------------------------------------------------------------------
  // raw_info: the profile request path
  // ---------------------------------------------------------------------

  const V1PathPrefix: string := "/v1/people/~:("
  const V1PathSuffix: string := ")?format=json"
  const V2Path: string := "/v2/me"

  /** The path `raw_info` requests for `version`, given the field list produced
      by `option_fields`: the v1 field selector, the fixed v2 path, or the
      `ArgumentError` of any other version. */
  function ProfilePath(version: ApiVersion, fields: seq<string>): (r: Result<string, Error>)
    ensures r.Err? <==> version.Other?
    ensures r.Err? ==> r.error == ArgumentError(UnexpectedVersionMessage(version.name))
    ensures version == V1 ==> r.Ok? && r.value == V1PathPrefix + Join(fields, ",") + V1PathSuffix
    ensures version == V2 ==> r.Ok? && r.value == V2Path
  {
    if version == V1 then Ok(V1PathPrefix + Join(fields, ",") + V1PathSuffix)
    else if version == V2 then Ok(V2Path)
    else Err(ArgumentError(UnexpectedVersionMessage(version.name)))
  }

  /** Reads the field selector back out of a v1 profile path. */
  function FieldsOfV1Path(path: string): Option<seq<string>> {
    if |path| >= |V1PathPrefix| + |V1PathSuffix|
       && path[..|V1PathPrefix|] == V1PathPrefix
       && path[|path| - |V1PathSuffix|..] == V1PathSuffix
    then Some(SplitOn(path[|V1PathPrefix|..|path| - |V1PathSuffix|], ','))
    else None
  }

  /** A v1 path requests exactly the given fields, in order: when no field
      holds a comma, the selector between the parentheses splits back into the
      list. */
  lemma V1PathNamesFields(fields: seq<string>)
    requires |fields| >= 1 && FreeOf(fields, ',')
    ensures ProfilePath(V1, fields).Ok?
    ensures FieldsOfV1Path(ProfilePath(V1, fields).value) == Some(fields)
  {
    var j := Join(fields, ",");
    var path := V1PathPrefix + j + V1PathSuffix;
    assert path[..|V1PathPrefix|] == V1PathPrefix;
    assert path[|path| - |V1PathSuffix|..] == V1PathSuffix;
    assert path[|V1PathPrefix|..|path| - |V1PathSuffix|] == j;
    SplitOnJoin(fields, ',');
  }

  // ---------------------------------------------------------------------
  // user_name
  // ---------------------------------------------------------------------

  /** The profile keys holding first and last name in `version`. */
  function NameKeys(version: ApiVersion): (string, string)
    requires !version.Other?
  {
    if version == V1 then ("firstName", "lastName") else ("localizedFirstName", "localizedLastName")
  }

  /** `"#{first} #{last}"` for the version's name keys: the interpolated first
      name, one space, the interpolated last name; "" for an unknown version. */
  function FullName(version: ApiVersion, raw: Profile): (r: string)
    ensures version.Other? ==> r == ""
    ensures !version.Other? ==>
              var first, last := Interpolate(Get(raw, NameKeys(version).0)), Interpolate(Get(raw, NameKeys(version).1));
              |r| == |first| + 1 + |last| && r[..|first|] == first && r[|first|] == ' ' && r[|first| + 1..] == last
  {
    if !version.Other? then
      Interpolate(Get(raw, NameKeys(version).0)) + " " + Interpolate(Get(raw, NameKeys(version).1))
    else ""
  }

  /** `user_name`: the first and last name joined by one space and stripped,
      or `nil` when nothing but whitespace is left. */
  function UserName(version: ApiVersion, raw: Profile): (r: Option<string>)
    ensures r.None? <==> AllSpace(FullName(version, raw))
    ensures r.Some? ==> r.value == Strip(FullName(version, raw))
    ensures r.Some? ==> r.value != [] && !IsSpace(r.value[0]) && !IsSpace(r.value[|r.value| - 1])
    ensures version.Other? ==> r.None?
  {
    var name := Strip(FullName(version, raw));
    if name == [] then None else Some(name)
  }

  /** A name made of two words with no surrounding whitespace is reported as
      those two words joined by a single space. */
  lemma UserNameOfTrimmedNames(version: ApiVersion, raw: Profile)
    requires !version.Other?
    requires NameKeys(version).0 in raw && NameKeys(version).1 in raw
    requires var f, l := raw[NameKeys(version).0], raw[NameKeys(version).1];
             f != [] && l != [] && !IsSpace(f[0]) && !IsSpace(f[|f| - 1]) && !IsSpace(l[0]) && !IsSpace(l[|l| - 1])
    ensures UserName(version, raw) == Some(raw[NameKeys(version).0] + " " + raw[NameKeys(version).1])
  {
    var f, l := raw[NameKeys(version).0], raw[NameKeys(version).1];
    var m := f + " " + l;
    assert FullName(version, raw) == m by {
      assert Interpolate(Get(raw, NameKeys(version).0)) == f;
      assert Interpolate(Get(raw, NameKeys(version).1)) == l;
    }
    assert m[0] == f[0] && m[|m| - 1] == l[|l| - 1];
    var e: string := [];
    assert AllSpace(e);
    assert e + m + e == m;
    StripUnique(e, m, e);
  }

  /** With the last name absent, the trailing space is stripped and the first
      name alone is reported. */
  lemma UserNameWithoutLastName(version: ApiVersion, raw: Profile)
    requires !version.Other?
    requires NameKeys(version).0 in raw && NameKeys(version).1 !in raw
    requires var f := raw[NameKeys(version).0]; f != [] && !IsSpace(f[0]) && !IsSpace(f[|f| - 1])
    ensures UserName(version, raw) == Some(raw[NameKeys(version).0])
  {
    var f := raw[NameKeys(version).0];
    var e: string := [];
    assert AllSpace(e) && AllSpace(" ");
    assert e + f + " " == FullName(version, raw);
    StripUnique(e, f, " ");
  }

  // ---------------------------------------------------------------------
  // uid, info, extra
  // ---------------------------------------------------------------------

  /** `uid`: the profile's `id`, or `nil` when the profile has none. */
  function Uid(raw: Profile): (r: Option<string>)
    ensures r.Some? <==> "id" in raw
    ensures r.Some? ==> r.value == raw["id"]
  {
    Get(raw, "id")
  }

  /** A value of the `info` hash: a text field (possibly `nil`) or the `urls` hash. */
  datatype InfoValue = Text(text: Option<string>) | Urls(urls: map<string, Option<string>>)

  /** The symbol keys of the `info` hash (`:name`, `:email`, ...). */
  datatype InfoKey = Name | Email | Nickname | FirstName | LastName | Location | Description | Image | UrlsKey

  /** The `info` hash of a supported version has an entry under every key. */
  predicate HasAllKeys(info: map<InfoKey, InfoValue>) {
    forall k: InfoKey :: k in info
  }

  /** The v1 `info` entry under `key`. */
  function V1InfoValue(raw: Profile, name: Option<string>, key: InfoKey): InfoValue {
    match key
    case Name => Text(name)
    case Email => Text(Get(raw, "emailAddress"))
    case Nickname => Text(name)
    case FirstName => Text(Get(raw, "firstName"))
    case LastName => Text(Get(raw, "lastName"))
    case Location => Text(Get(raw, "location"))
    case Description => Text(Get(raw, "headline"))
    case Image => Text(Get(raw, "pictureUrl"))
    case UrlsKey => Urls(map["public_profile" := Get(raw, "publicProfileUrl")])
  }

  /** The v2 `info` entry under `key`. */
  function V2InfoValue(raw: Profile, name: Option<string>, key: InfoKey): InfoValue {
    match key
    case Name => Text(name)
    case Email => Text(Some(""))
    case Nickname => Text(name)
    case FirstName => Text(Get(raw, "localizedFirstName"))
    case LastName => Text(Get(raw, "localizedLastName"))
    case Location => Text(Some(""))
    case Description => Text(Some(""))
    case Image => Text(Some(""))
    case UrlsKey => Urls(map["public_profile" := Some("")])
  }

  /** The v1 branch of the `info` block, `name` being `user_name`. */
  function V1Info(raw: Profile, name: Option<string>): (r: map<InfoKey, InfoValue>)
    ensures HasAllKeys(r)
    ensures r[Name] == r[Nickname] == Text(name)
    ensures r[Email] == Text(Get(raw, "emailAddress"))
    ensures r[FirstName] == Text(Get(raw, "firstName")) && r[LastName] == Text(Get(raw, "lastName"))
    ensures r[Location] == Text(Get(raw, "location")) && r[Description] == Text(Get(raw, "headline"))
    ensures r[Image] == Text(Get(raw, "pictureUrl"))
    ensures r[UrlsKey] == Urls(map["public_profile" := Get(raw, "publicProfileUrl")])
  {
    map k: InfoKey | true :: V1InfoValue(raw, name, k)
  }

  /** The v2 branch of the `info` block, `name` being `user_name`. */
  function V2Info(raw: Profile, name: Option<string>): (r: map<InfoKey, InfoValue>)
    ensures HasAllKeys(r)
    ensures r[Name] == r[Nickname] == Text(name)
    ensures r[FirstName] == Text(Get(raw, "localizedFirstName"))
    ensures r[LastName] == Text(Get(raw, "localizedLastName"))
    ensures r[Email] == r[Location] == r[Description] == r[Image] == Text(Some(""))
    ensures r[UrlsKey] == Urls(map["public_profile" := Some("")])
  {
    map k: InfoKey | true :: V2InfoValue(raw, name, k)
  }

  /** The `info` block for `version` and profile `raw`: v1 copies profile
      members; v2 copies the localized names and leaves everything else blank;
      any other version yields the empty hash. In both supported versions
      `name` and `nickname` are `user_name` and the first and last names are
      the members `user_name` reads. */
  function Info(version: ApiVersion, raw: Profile): (r: map<InfoKey, InfoValue>)
    ensures !version.Other? ==> HasAllKeys(r)
    ensures version.Other? ==> r == map[]
    ensures !version.Other? ==>
              r[Name] == r[Nickname] == Text(UserName(version, raw))
              && r[FirstName] == Text(Get(raw, NameKeys(version).0))
              && r[LastName] == Text(Get(raw, NameKeys(version).1))
  {
    if version == V1 then V1Info(raw, UserName(V1, raw))
    else if version == V2 then V2Info(raw, UserName(V2, raw))
    else map[]
  }

  lemma V1InfoReadsOnlyCopiedMembers(raw1: Profile, raw2: Profile, name: Option<string>)
    requires Get(raw1, "firstName") == Get(raw2, "firstName")
    requires Get(raw1, "lastName") == Get(raw2, "lastName")
    requires Get(raw1, "emailAddress") == Get(raw2, "emailAddress")
    requires Get(raw1, "location") == Get(raw2, "location")
    requires Get(raw1, "headline") == Get(raw2, "headline")
    requires Get(raw1, "pictureUrl") == Get(raw2, "pictureUrl")
    requires Get(raw1, "publicProfileUrl") == Get(raw2, "publicProfileUrl")
    ensures V1Info(raw1, name) == V1Info(raw2, name)
  {
    forall k: InfoKey ensures V1InfoValue(raw1, name, k) == V1InfoValue(raw2, name, k) {
    }
  }

  /** The v1 `info` hash depends on nothing in the profile but the seven
      members it reads. */
  lemma V1InfoReadsOnlyItsSources(raw1: Profile, raw2: Profile)
    requires Get(raw1, "firstName") == Get(raw2, "firstName")
    requires Get(raw1, "lastName") == Get(raw2, "lastName")
    requires Get(raw1, "emailAddress") == Get(raw2, "emailAddress")
    requires Get(raw1, "location") == Get(raw2, "location")
    requires Get(raw1, "headline") == Get(raw2, "headline")
    requires Get(raw1, "pictureUrl") == Get(raw2, "pictureUrl")
    requires Get(raw1, "publicProfileUrl") == Get(raw2, "publicProfileUrl")
    ensures Info(V1, raw1) == Info(V1, raw2)
  {
    assert FullName(V1, raw1) == FullName(V1, raw2);
    V1InfoReadsOnlyCopiedMembers(raw1, raw2, UserName(V1, raw1));
  }

  lemma V2InfoReadsOnlyCopiedMembers(raw1: Profile, raw2: Profile, name: Option<string>)
    requires Get(raw1, "localizedFirstName") == Get(raw2, "localizedFirstName")
    requires Get(raw1, "localizedLastName") == Get(raw2, "localizedLastName")
    ensures V2Info(raw1, name) == V2Info(raw2, name)
  {
    forall k: InfoKey ensures V2InfoValue(raw1, name, k) == V2InfoValue(raw2, name, k) {
    }
  }

  /** The v2 `info` hash depends on nothing in the profile but the two localized
      names: email, location, description, image and public profile are blank
      whatever the profile holds. */
  lemma V2InfoReadsOnlyNames(raw1: Profile, raw2: Profile)
    requires Get(raw1, "localizedFirstName") == Get(raw2, "localizedFirstName")
    requires Get(raw1, "localizedLastName") == Get(raw2, "localizedLastName")
    ensures Info(V2, raw1) == Info(V2, raw2)
  {
    assert FullName(V2, raw1) == FullName(V2, raw2);
    V2InfoReadsOnlyCopiedMembers(raw1, raw2, UserName(V2, raw1));
  }

  /** `extra`: the profile under `raw_info`, unmodified (`nil` included). */
  function Extra(raw: Option<Profile>): (r: map<string, Option<Profile>>)
    ensures r.Keys == {"raw_info"} && r["raw_info"] == raw
  {
    map["raw_info" := raw]
  }

  // ---------------------------------------------------------------------
  // callback_url
  // ---------------------------------------------------------------------

  /** `callback_url`: the externally visible host, then the mount prefix, then
      the callback path, each found unchanged at its place in the result. */
  function CallbackUrl(fullHost: string, scriptName: string, callbackPath: string): (r: string)
    ensures |r| == |fullHost| + |scriptName| + |callbackPath|
    ensures r[..|fullHost|] == fullHost
    ensures r[|fullHost|..|fullHost| + |scriptName|] == scriptName
    ensures r[|fullHost| + |scriptName|..] == callbackPath
  {
    fullHost + scriptName + callbackPath
  }
}
