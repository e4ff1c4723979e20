/**
 * The stateful part of the LinkedIn strategy: one instance per authentication
 * attempt, holding the configured options, the `options.fields` array that
 * `option_fields` rewrites in place, and the `@raw_info` slot that `raw_info`
 * fills once. The HTTP GET through the access token is the function `fetch`
 * (path to parsed body, `None` standing for a `nil` body), and every call of
 * it is recorded in `requests`.
 */
module LinkedInStrategy {
  import opened Wrappers
  import opened LinkedInProfile

  class LinkedIn {
    /** `options.fields`; it may be the very array other instances share. */
    const fields: array<string>
    /** `!!options[:secure_image_url]` */
    const secureImageUrl: bool
    /** `options.api_version` */
    const apiVersion: string
    /** `access_token.get(path).parsed` */
    const fetch: string -> Option<Profile>
    /** `@raw_info` */
    var rawInfo: Option<Profile>
    /** The paths requested so far, oldest first. */
    var requests: seq<string>

    constructor (fields: array<string>, secureImageUrl: bool, apiVersion: string, fetch: string -> Option<Profile>)
      ensures this.fields == fields && this.secureImageUrl == secureImageUrl
      ensures this.apiVersion == apiVersion && this.fetch == fetch
      ensures rawInfo == None && requests == []
    {
      this.fields := fields;
      this.secureImageUrl := secureImageUrl;
      this.apiVersion := apiVersion;
      this.fetch := fetch;
      rawInfo := None;
      requests := [];
    }

    /** The configured `api_version`, classified. */
    function Version(): ApiVersion {
      ParseVersion(apiVersion)
    }

    /** `option_fields`: rewrites `options.fields` in place (`map!`) when
        `secure_image_url` is set, and returns its contents. */
    method OptionFields() returns (r: seq<string>)
      modifies fields
      ensures fields[..] == RewriteFields(old(fields[..]), secureImageUrl)
      ensures r == fields[..]
    {
      if secureImageUrl {
        var i := 0;
        while i < fields.Length
          invariant 0 <= i <= fields.Length
          invariant forall k :: 0 <= k < i ==> fields[k] == SecureField(old(fields[k]))
          invariant forall k :: i <= k < fields.Length ==> fields[k] == old(fields[k])
        {
          fields[i] := SecureField(fields[i]);
          i := i + 1;
        }
      }
      r := fields[..];
    }

    /** What one `raw_info` call does to the attempt's state. With an
        unsupported version or a profile already in the slot, nothing changes.
        Otherwise `options.fields` is rewritten (v1 only; v2 never calls
        `option_fields`), exactly one request goes out, on `ProfilePath` of the
        field list, and its parsed body, `nil` included, is stored in the slot. */
    twostate predicate RawInfoEffect()
      reads this, fields
    {
      if Version().Other? || old(rawInfo).Some? then
        rawInfo == old(rawInfo) && requests == old(requests) && fields[..] == old(fields[..])
      else
        fields[..] == (if Version() == V1 then RewriteFields(old(fields[..]), secureImageUrl) else old(fields[..]))
        && ProfilePath(Version(), fields[..]).Ok?
        && requests == old(requests) + [ProfilePath(Version(), fields[..]).value]
        && rawInfo == fetch(ProfilePath(Version(), fields[..]).value)
    }

    /** `raw_info`. An unsupported version raises `ArgumentError` and touches
        nothing. A supported version with a profile already in the slot returns
        it and requests nothing. Otherwise the version's path is requested once
        (for v1 after the field rewrite, which only this branch performs) and
        the parsed body is stored in the slot, even when it is `nil`. */
    method RawInfo() returns (r: Result<Option<Profile>, Error>)
      modifies this`rawInfo, this`requests, fields
      ensures Version().Other? ==> r == Err(ArgumentError(UnexpectedVersionMessage(apiVersion)))
      ensures !Version().Other? ==> r == Ok(rawInfo)
      ensures RawInfoEffect()
    {
      var version := Version();
      if version == V1 {
        if rawInfo.None? {
          var fs := OptionFields();
          var path := ProfilePath(V1, fs).value;
          requests := requests + [path];
          rawInfo := fetch(path);
        }
        r := Ok(rawInfo);
      } else if version == V2 {
        if rawInfo.None? {
          var path := ProfilePath(V2, fields[..]).value;
          requests := requests + [path];
          rawInfo := fetch(path);
        }
        r := Ok(rawInfo);
      } else {
        r := Err(ArgumentError(UnexpectedVersionMessage(apiVersion)));
      }
    }

    /** The `uid` block: `raw_info['id']`, raising what `raw_info` raises and
        `NoMethodError` when the fetched body is `nil`. */
    method Uid() returns (r: Result<Option<string>, Error>)
      modifies this`rawInfo, this`requests, fields
      ensures Version().Other? ==> r == Err(ArgumentError(UnexpectedVersionMessage(apiVersion)))
      ensures !Version().Other? && rawInfo.None? ==> r == Err(NoMethodError)
      ensures !Version().Other? && rawInfo.Some? ==> r == Ok(LinkedInProfile.Uid(rawInfo.value))
      ensures RawInfoEffect()
    {
      var raw := RawInfo();
      match raw
      case Err(e) => r := Err(e);
      case Ok(None) => r := Err(NoMethodError);
      case Ok(Some(p)) => r := Ok(LinkedInProfile.Uid(p));
    }

    /** The `info` block. For an unsupported version it is the empty hash and
        `raw_info` is never called, so nothing is raised or requested. For a
        supported one the first `user_name` call goes through `raw_info`,
        which fetches only if the slot is empty; every later `raw_info` call in the block returns the memoised profile. */
    method Info() returns (r: Result<map<InfoKey, InfoValue>, Error>)
      modifies this`rawInfo, this`requests, fields
      ensures Version().Other? ==> r == Ok(map[])
      ensures !Version().Other? && rawInfo.None? ==> r == Err(NoMethodError)
      ensures !Version().Other? && rawInfo.Some? ==> r == Ok(LinkedInProfile.Info(Version(), rawInfo.value))
      ensures RawInfoEffect()
    {
      if !Version().Other? {
        var raw := RawInfo();
        match raw
        case Err(e) => r := Err(e);
        case Ok(None) => r := Err(NoMethodError);
        case Ok(Some(p)) => r := Ok(LinkedInProfile.Info(Version(), p));
      } else {
        r := Ok(map[]);
      }
    }

    /** The `extra` block: `{'raw_info' => raw_info}`, holding the profile as
        fetched, `nil` included. */
    method Extra() returns (r: Result<map<string, Option<Profile>>, Error>)
      modifies this`rawInfo, this`requests, fields
      ensures Version().Other? ==> r == Err(ArgumentError(UnexpectedVersionMessage(apiVersion)))
      ensures !Version().Other? ==> r == Ok(LinkedInProfile.Extra(rawInfo))
      ensures RawInfoEffect()
    {
      var raw := RawInfo();
      match raw
      case Err(e) => r := Err(e);
      case Ok(p) => r := Ok(LinkedInProfile.Extra(p));
    }
  }

  /** Two `raw_info` calls on one attempt. Once the first has stored a profile,
      the second returns the same one, and together they issue at most one
      request; an unsupported version issues none. */
  method RawInfoTwice(s: LinkedIn) returns (first: Result<Option<Profile>, Error>, second: Result<Option<Profile>, Error>)
    modifies s`rawInfo, s`requests, s.fields
    ensures first.Ok? && first.value.Some? ==> second == first && |s.requests| <= |old(s.requests)| + 1
    ensures old(s.rawInfo).None? && first.Ok? && first.value.Some? ==> |s.requests| == |old(s.requests)| + 1
    ensures !s.Version().Other? && old(s.rawInfo).Some? ==>
              first == second == Ok(old(s.rawInfo)) && s.requests == old(s.requests)
    ensures s.Version().Other? ==> first.Err? && second.Err? && s.requests == old(s.requests)
  {
    first := s.RawInfo();
    second := s.RawInfo();
  }

  /** The three blocks run once each, in the order they are declared: `uid`,
      then `info`, then `extra`, the first exception ending the sequence. The
      field list and the slot change exactly as one `raw_info` call changes
      them. An unsupported version raises from `uid` and requests nothing. A
      filled slot answers all three with no request. An empty slot costs exactly one
      request, on the version's path, whatever the body turns out to be; a
      `nil` body ends the sequence with `NoMethodError` from `uid`. */
  method AuthHashBlocks(s: LinkedIn)
    returns (r: Result<(Option<string>, map<InfoKey, InfoValue>, map<string, Option<Profile>>), Error>)
    modifies s`rawInfo, s`requests, s.fields
    ensures s.RawInfoEffect()
    ensures s.Version().Other? ==>
              r == Err(ArgumentError(UnexpectedVersionMessage(s.apiVersion)))
              && s.requests == old(s.requests) && s.rawInfo == old(s.rawInfo) && s.fields[..] == old(s.fields[..])
    ensures !s.Version().Other? && old(s.rawInfo).Some? ==>
              s.requests == old(s.requests) && s.rawInfo == old(s.rawInfo) && s.fields[..] == old(s.fields[..])
    ensures !s.Version().Other? && old(s.rawInfo).None? ==>
              |s.requests| == |old(s.requests)| + 1
              && ProfilePath(s.Version(), s.fields[..]).Ok?
              && s.requests == old(s.requests) + [ProfilePath(s.Version(), s.fields[..]).value]
              && s.rawInfo == s.fetch(ProfilePath(s.Version(), s.fields[..]).value)
    ensures !s.Version().Other? && s.rawInfo.None? ==> r == Err(NoMethodError)
    ensures !s.Version().Other? && s.rawInfo.Some? ==>
              var p := s.rawInfo.value;
              r == Ok((LinkedInProfile.Uid(p), LinkedInProfile.Info(s.Version(), p), LinkedInProfile.Extra(Some(p))))
  {
    var uid := s.Uid();
    if uid.Err? {
      return Err(uid.error);
    }
    // Once `uid` has succeeded the slot holds a profile, so neither later
    // block can raise.
    var info := s.Info();
    assert info.Ok?;
    var extra := s.Extra();
    assert extra.Ok?;
    r := Ok((uid.value, info.value, extra.value));
  }
}
