# LinkedIn OmniAuth strategy, modelled in Dafny

`OmniAuth::Strategies::LinkedIn` is an OAuth2 strategy for OmniAuth. Its own logic is small:

- it rewrites the list of requested profile fields when `secure_image_url` is set;
- it picks the profile request path from `api_version` (`"v1"`, `"v2"`, or an `ArgumentError`);
- it fetches the profile once per authentication attempt and keeps it in `@raw_info`;
- it maps the profile to the `uid`, `info` and `extra` hashes OmniAuth hands to the application;
- it reports its callback URL.

The model has four modules:

- `Wrappers` (`wrappers.dfy`): `Option` stands for a value that may be `nil`. `Result` stands for a call that returns a value or raises.
- `RubyText` (`ruby_text.dfy`): Ruby's `String#strip` (with `lstrip`/`rstrip`) and `Array#join`. The strip contract's whitespace set is NUL, tab, line feed, vertical tab, form feed, carriage return and space. `SplitOn` undoes `Join` on a non-empty list none of whose elements contains the separator; it is used to prove what a request path contains.
- `LinkedInProfile` (`linkedin_profile.dfy`): the pure part of the strategy. These are the field-list rewrite, the request path, `user_name`, the `uid`/`info`/`extra` blocks and `callback_url`. The parsed profile is a `map<string, string>`, and a missing key reads as `nil`. `api_version` is read into `ApiVersion = V1 | V2 | Other(name)`. This is exactly the two string comparisons the source makes. Keys of the `info` hash are the symbol datatype `InfoKey`.
- `LinkedInStrategy` (`linkedin_strategy.dfy`): the class `LinkedIn`, one instance per authentication attempt. It has these fields:
  - `fields`: the `options.fields` array that `map!` rewrites in place. It may be shared with other instances.
  - `secureImageUrl` and `apiVersion`: the options.
  - `rawInfo`: the memo slot `@raw_info`.
  - `requests`: a log of the paths fetched.

  The GET through the access token, followed by `.parsed`, is the function field `fetch`. It maps a path to an optional profile; `None` is a body that parses to `nil`.

Behaviour of the code as written that a reader might not expect:

- `uid` returns `nil` for a profile without `id`. No "missing field" error is raised.
- Both versions fetch through the same query-mode access token. The v2 request does not use a bearer header.
- The configured field list is changed in place by `map!`. It is not a new list. `LinkedInProfile.RewriteFieldsIdempotent` shows why repeating the change is harmless.
- `info` for an unknown version never calls `raw_info`, so it returns `{}` without raising. `uid` and `extra` do call `raw_info`, so they raise `ArgumentError`.
- `@raw_info ||= …` stores a `nil` body and fetches again on the next call. `LinkedIn.RawInfo` does the same. In the model `fetch` is a function of the path, so the second fetch of the same path returns the same body; a real GET may succeed the second time.

## Model

| member | source | states |
|---|---|---|
| `RubyText.Strip` | lib/omniauth/strategies/linkedin.rb:105-106 | `String#strip`: the result is the slice of the input between two all-whitespace margins. It neither begins nor ends with whitespace. It is empty exactly when the input is all whitespace. |
| `RubyText.StripUnique` | lib/omniauth/strategies/linkedin.rb:105-106 | Any text framed by whitespace-only margins, with no whitespace at either end, is what `strip` returns. So the contract of `Strip` pins down its result. |
| `RubyText.StripIdempotent` | lib/omniauth/strategies/linkedin.rb:105-106 | Stripping a stripped name changes nothing. |
| `RubyText.Join` | lib/omniauth/strategies/linkedin.rb:83 | `Array#join`: `[]` joins to `""` and one element to itself. A longer list starts with its first element followed by the separator, and ends with its last element. |
| `RubyText.SplitOnJoin` | lib/omniauth/strategies/linkedin.rb:83 | For a non-empty list none of whose elements contains the separator, `join` loses nothing: cutting at the separator gives back the list in order. |
| `LinkedInProfile.ParseVersion` | lib/omniauth/strategies/linkedin.rb:82-90 | `api_version` is v1 exactly when the string is `"v1"` and v2 exactly when it is `"v2"`. Any other string is kept as an unsupported version. |
| `LinkedInProfile.UnexpectedVersionMessage` | lib/omniauth/strategies/linkedin.rb:90 | The `ArgumentError` message is the fixed text `"Unexpected value for api_version option: "` followed by the configured value, unchanged. |
| `LinkedInProfile.Interpolate` | lib/omniauth/strategies/linkedin.rb:105-106 | `"#{v}"` is the string itself, and `nil` interpolates to `""`. |
| `LinkedInProfile.Get` | lib/omniauth/strategies/linkedin.rb:32 | `raw_info[key]` is the member's value when the key is present and `nil` otherwise. |
| `LinkedInProfile.SecureField` | lib/omniauth/strategies/linkedin.rb:98 | The `map!` block leaves every entry other than `"picture-url"` unchanged and never returns `"picture-url"`. It returns `"picture-url;secure=true"` exactly for that entry and for the already rewritten one. |
| `LinkedInProfile.RewriteFields` | lib/omniauth/strategies/linkedin.rb:96-99 | With `secure_image_url` set, the length is kept. Every `"picture-url"` becomes `"picture-url;secure=true"`, every other entry stays in place, and no `"picture-url"` is left. Without the flag the list is unchanged. |
| `LinkedInProfile.RewriteFieldsIdempotent` | lib/omniauth/strategies/linkedin.rb:98 | Running the rewrite again on its own output, as later fetches do after `map!`, changes nothing. |
| `LinkedInProfile.DefaultFieldsSecureRewrite` | lib/omniauth/strategies/linkedin.rb:18 | With `secure_image_url` set, the default nine-field list changes only at its eighth entry, `"picture-url"`, which becomes `"picture-url;secure=true"`. |
| `LinkedInProfile.ProfilePath` | lib/omniauth/strategies/linkedin.rb:81-91 | The v1 path is exactly `"/v1/people/~:(" + fields.join(",") + ")?format=json"`. The v2 path is exactly `"/v2/me"`. Any other version gives `ArgumentError("Unexpected value for api_version option: " + version)`, and that happens exactly for those versions. |
| `LinkedInProfile.V1PathNamesFields` | lib/omniauth/strategies/linkedin.rb:83 | For a non-empty list none of whose fields contains a comma, a v1 path requests exactly the given fields, in order: the selector between the parentheses splits back into the list. A nested selector such as `positions:(id,title)` is outside this. |
| `LinkedInProfile.FullName` | lib/omniauth/strategies/linkedin.rb:104-108 | For v1 and v2 the string is the interpolated first name, one space, then the interpolated last name, each at its own place. An unknown version gives `""`. |
| `LinkedInProfile.UserName` | lib/omniauth/strategies/linkedin.rb:102-110 | The result is `nil` exactly when `"#{first} #{last}"` is all whitespace. Otherwise it is the stripped string, non-empty and with no whitespace at either end. An unknown version always gives `nil`. |
| `LinkedInProfile.UserNameOfTrimmedNames` | lib/omniauth/strategies/linkedin.rb:105-106 | Non-empty first and last names without surrounding whitespace give `first + " " + last`. v1 reads `firstName`/`lastName`; v2 reads `localizedFirstName`/`localizedLastName`. |
| `LinkedInProfile.UserNameWithoutLastName` | lib/omniauth/strategies/linkedin.rb:105 | With the last name absent and a non-empty first name that neither begins nor ends with whitespace, `nil` interpolates to `""`, the trailing space is stripped, and the first name alone is the name. |
| `LinkedInProfile.Uid` | lib/omniauth/strategies/linkedin.rb:26 | `uid` is `raw_info['id']`: that member when present, `nil` otherwise. |
| `LinkedInProfile.V1Info` | lib/omniauth/strategies/linkedin.rb:29-42 | The v1 hash has all nine keys. `name` and `nickname` are `user_name`. `email`, `first_name`, `last_name`, `location`, `description`, `image` and `urls.public_profile` are `emailAddress`, `firstName`, `lastName`, `location`, `headline`, `pictureUrl` and `publicProfileUrl`. |
| `LinkedInProfile.V2Info` | lib/omniauth/strategies/linkedin.rb:43-56 | The v2 hash has all nine keys. `name` and `nickname` are `user_name`. The first and last names are the localized ones. `email`, `location`, `description`, `image` and `urls.public_profile` are `""`. |
| `LinkedInProfile.Info` | lib/omniauth/strategies/linkedin.rb:28-60 | A supported version gives a hash with every key. `name == nickname == user_name`, and the first and last names are the members `user_name` reads. An unsupported version gives the empty hash. |
| `LinkedInProfile.V1InfoReadsOnlyItsSources` | lib/omniauth/strategies/linkedin.rb:29-42 | Two profiles that agree on the seven members v1 reads give the same v1 `info` hash. |
| `LinkedInProfile.V2InfoReadsOnlyNames` | lib/omniauth/strategies/linkedin.rb:43-56 | Two profiles that agree on the two localized names give the same v2 `info` hash. Whatever else the profile holds, the rest stays blank. |
| `LinkedInProfile.Extra` | lib/omniauth/strategies/linkedin.rb:62-64 | `extra` has the single key `raw_info`, and its value is the profile unmodified (`nil` included). |
| `LinkedInProfile.CallbackUrl` | lib/omniauth/strategies/linkedin.rb:66-68 | The URL's length is the sum of its three parts. `full_host`, `script_name` and `callback_path` each appear unchanged, in that order, at their own positions. |
| `LinkedInStrategy.LinkedIn.constructor` | lib/omniauth/strategies/linkedin.rb:17-19 | A new attempt holds the given options, has an empty `@raw_info` and has made no requests. |
| `LinkedInStrategy.LinkedIn.OptionFields` | lib/omniauth/strategies/linkedin.rb:96-100 | `options.fields` is rewritten in place to `RewriteFields` of its old contents, and those contents are returned. |
| `LinkedInStrategy.LinkedIn.RawInfo` | lib/omniauth/strategies/linkedin.rb:81-92 | An unsupported version raises `ArgumentError` and changes nothing. A filled slot is returned with no request and no rewrite. Otherwise exactly one request goes out, for v1 after the field rewrite. Its path is `ProfilePath` of the field list, and the parsed body is stored and returned. The effect on the state is the predicate `RawInfoEffect`. |
| `LinkedInStrategy.LinkedIn.Uid` | lib/omniauth/strategies/linkedin.rb:26 | This is `raw_info['id']` of the profile in the slot afterwards. It raises `ArgumentError` for an unsupported version and `NoMethodError` for a `nil` body. The state changes exactly as one `raw_info` call changes it (`RawInfoEffect`): nothing for an unsupported version or a filled slot, otherwise one request. |
| `LinkedInStrategy.LinkedIn.Info` | lib/omniauth/strategies/linkedin.rb:28-60 | An unsupported version gives `{}` with no request and no state change. Otherwise the result is `Info` of the profile in the slot, or `NoMethodError` for a `nil` body. The state changes as one `raw_info` call changes it (`RawInfoEffect`). |
| `LinkedInStrategy.LinkedIn.Extra` | lib/omniauth/strategies/linkedin.rb:62-64 | This is `{'raw_info' => raw_info}` of the memoised profile. It raises `ArgumentError` for an unsupported version. The state changes as one `raw_info` call changes it (`RawInfoEffect`). |
| `LinkedInStrategy.RawInfoTwice` | lib/omniauth/strategies/linkedin.rb:83-90 | Once `raw_info` has stored a profile, a second call returns the same value. The two calls make at most one request between them: exactly one when the slot started empty and the first call stored a profile, and none if the slot was already filled. An unsupported version raises both times and requests nothing. |
| `LinkedInStrategy.AuthHashBlocks` | lib/omniauth/strategies/linkedin.rb:26-64 | `uid`, `info` and `extra` run once each in the order they are declared, stopping at the first exception. The state changes as one `raw_info` call changes it (`RawInfoEffect`). An unsupported version raises `ArgumentError` and changes nothing. A filled slot gives all three with no request. An empty slot costs exactly one request, on the version's path. A `nil` body ends with `NoMethodError`, and otherwise the three values come from the fetched profile. |

## Left out

- The access-token wrapper (lib/omniauth/strategies/linkedin.rb:70-79) and HTTP: the GET and its query-mode token parameter `oauth2_access_token` are the abstract `fetch`. Transport errors, timeouts and their exceptions are not modelled.
- `.parsed` JSON decoding: the profile arrives already parsed. Member values are strings. A nested JSON value, such as the v1 `location` object, is treated as an opaque string, and Ruby's `to_s` of non-string values inside the name interpolation is not modelled.
- The option declarations, `client_options` URLs, `scope` and `add_camelization` (lines 7-19, 115) are static registration. Only the default field list (`DefaultFields`) is kept, as a constant.
- `full_host`, `script_name` and `callback_path` come from the OmniAuth superclass. They are given strings.
- The OAuth2 authorization-code flow (section 4.1 of RFC 6749) and its CSRF state handling belong to the host framework.
- LinkedInStrategy.LinkedIn.Info: the hash literal reads `raw_info` several times. The model reads it once. After the first call every later one returns the stored profile and requests nothing (`RawInfo`'s contract), so the result is the same. If the first body was `nil`, the first `user_name` call raises before any other read.
- RubyText.Strip: the whitespace set is the ASCII one Ruby documents for `strip`. Strings are sequences of characters, and encodings and invalid byte sequences are not modelled.
- LinkedInStrategy.AuthHashBlocks: the order uid, then info, then extra is an assumption. The strategy file only declares the three blocks. The order they run in belongs to OmniAuth's `auth_hash`, which is not part of this model. If `extra` runs before `uid`, a `nil` body costs two requests, not one, because `raw_info` does not memoise `nil`.
