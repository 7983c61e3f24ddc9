# Smart real-estate system: request gates, controller outcomes and AI-service rules in Dafny

This project models the decision logic of a small real-estate listing system. The system has two services:

- A Laravel backend. It serves property records and proxies a "generate marketing content" request to an AI service. It also reports an aggregated health status.
- A FastAPI AI service. It predicts prices and writes marketing text with a chat model.

Every effect becomes an input value:

- the database lookups, and the rows of the key table (the key query itself is computed over them);
- the outbound HTTP calls;
- the chat-completion call;
- the trained price model.

The modelled decisions are then total functions over those values. Two of them are methods:

- `PropertyController.HealthCheck` builds its status map entry by entry, as the PHP code does.
- `Routes.Serve` composes the gate and the actions.

Each action also returns the outbound call it would make (`Option<OutboundCall>`). This makes "no call is made" a provable statement.

Modules (one per source file, plus three shared ones):

- `Text`: an `Option` type. Python's substring test (`Contains`), `startswith`, and `str.strip` with Python's whitespace set. Decimal rendering of integers.
- `Php`: PHP truthiness of string-or-null values (`null`, `""` and `"0"` are false). Decoded JSON values. The `??` operator over a decoded JSON object.
- `Http`: an inbound request and its `X-API-KEY` header.
- `ApiKeyMiddleware`: the backend gate over the `api_keys` table.
- `PropertyController`: `index`, `show`, `generateContent` and `healthCheck`.
- `Routes`: the route table. The property routes are gated and `/health` is not.
- `AiServiceMain`: the AI service's `verify_api_key`.
- `Predict`: `predict_price`.
- `Generate`: `generate_content`.

Five points of the backend's behaviour that are easy to miss:

- A missing AI-service URL in `generateContent` ends in the generic 500 message. The "URL 未設定" text is only the message of an exception that the generic handler catches, so it never reaches the caller.
- The placeholder for generated content replaces only a missing or null field. An empty string is relayed as it is.
- An upstream reply that Laravel does not count as successful (any non-2xx status, including 1xx and 3xx) is treated as an error. Its status is kept when it is at least 400 and replaced by 500 otherwise.
- An upstream 503 reply is relayed as a 503 with the upstream's details. So a 503 alone does not identify a connection failure; the body does.
- An error reply whose `detail` is an array or object, such as FastAPI's 422 validation error, is not relayed. The error log line interpolates the detail into a string. PHP reports "Array to string conversion", which Laravel raises as an `ErrorException`. The generic handler then answers 500.

## Model

| member | source | states |
|---|---|---|
| `Text.ContainsIsOccurrence` | ai-services-fastapi/routers/predict.py:87-92 | Python's `sub in s` holds exactly when `sub` occurs at some index of `s` |
| `Text.StripIsTrimmedSlice` | ai-services-fastapi/routers/generate.py:63 | `strip()` returns a contiguous slice of its input with only whitespace removed before and after it, and no whitespace left at either end |
| `Text.StripIdempotent` | ai-services-fastapi/routers/generate.py:63 | stripping stripped text changes nothing |
| `Php.Coalesce` | backend-laravel/app/Http/Controllers/PropertyController.php:90-93 | `??` yields the field when it is present and not null (an empty string included), and the fallback otherwise |
| `Http.ApiKeyOf` | backend-laravel/app/Http/Middleware/ApiKeyMiddleware.php:22 | the header value is present exactly when the request carries `X-API-KEY`, and is then that header's value |
| `ApiKeyMiddleware.NewRow` | backend-laravel/database/migrations/2024_06_27_000001_create_api_keys_table.php:18-20 | a key row inserted without `is_active` is active |
| `ApiKeyMiddleware.ActiveKeyExists` | backend-laravel/app/Http/Middleware/ApiKeyMiddleware.php:26 | the key query is true exactly when some row has the given key and is active |
| `ApiKeyMiddleware.Handle` | backend-laravel/app/Http/Middleware/ApiKeyMiddleware.php:20-37 | a null, empty or "0" header is a 401 before storage is consulted; with a usable header, a storage fault is a 500; the request is forwarded, unchanged, exactly when the header is truthy, storage answers and some row holds that key and is active; a 500 comes exactly from the storage fault, so a truthy key that no active row holds is a 401 |
| `ApiKeyMiddleware.InactiveKeyRejected` | backend-laravel/app/Http/Middleware/ApiKeyMiddleware.php:26-28 | with unique keys, a key whose row is inactive is refused with 401 |
| `ApiKeyMiddleware.DeactivationRevokes` | backend-laravel/app/Http/Middleware/ApiKeyMiddleware.php:26-28 | switching a row's `is_active` off makes its key refused, whatever the key's earlier status |
| `ApiKeyMiddleware.ProvisionedKeyAccepted` | backend-laravel/database/migrations/2024_06_27_000001_create_api_keys_table.php:18-20 | a truthy key that no row holds yet, as the unique index requires for the insert, becomes accepted once a row for it is inserted with the `is_active` default |
| `ApiKeyMiddleware.FalsyHeaderIgnoresStorage` | backend-laravel/app/Http/Middleware/ApiKeyMiddleware.php:26-28 | a falsy header gets 401 whatever state storage is in, down included |
| `PropertyController.PaginationArgs` | backend-laravel/app/Http/Controllers/PropertyController.php:22-23 | page defaults to 1 and limit to 10 when absent from the query, and are the query's values otherwise |
| `PropertyController.Index` | backend-laravel/app/Http/Controllers/PropertyController.php:19-40 | 200 with the paginator's items and metadata exactly when the paginator returns a page; 500 with the fixed list-failure message exactly when it throws an `\Exception`; the framework's own 500 exactly when it raises a PHP `\Error`, which `catch (\Exception)` does not catch |
| `PropertyController.Show` | backend-laravel/app/Http/Controllers/PropertyController.php:47-58 | 200 exactly for a found row and then the body is that row; 404 exactly for an unknown id; 500 with a fixed message exactly for any other storage fault |
| `PropertyController.ShowHidesFaultText` | backend-laravel/app/Http/Controllers/PropertyController.php:54-56 | the response to a storage fault does not depend on the fault's message |
| `PropertyController.GenerateContent` | backend-laravel/app/Http/Controllers/PropertyController.php:65-109 | unknown id: 404 and no call. A call is made exactly when the row exists and the URL is truthy, and it posts the row to `{url}/generate/content` with the internal key and a 60 s timeout. Storage fault or missing URL: generic 500. 200 exactly on a 2xx reply, relaying `generated_content ?? placeholder`. Any other reply whose `detail ?? body` is a scalar: the reply's status if at least 400, else 500, with that value as details. An array or object `detail` makes the log line's string interpolation throw, so the answer is the generic 500, with the call still made. Connection failure: 503 with its own message. Other failures: generic 500 |
| `PropertyController.ValidationErrorNotRelayed` | backend-laravel/app/Http/Controllers/PropertyController.php:93-94 | a 422 reply whose `detail` is a list (FastAPI's validation error) is answered with the generic 500, after the call was made |
| `PropertyController.GenerateContentErrorsAreErrors` | backend-laravel/app/Http/Controllers/PropertyController.php:92-107 | every non-200 answer of the action has a status of at least 400 |
| `PropertyController.EmptyContentIsRelayed` | backend-laravel/app/Http/Controllers/PropertyController.php:87-91 | an empty `generated_content` string is relayed unchanged, not replaced by the placeholder |
| `Text.NatToStringValue` | backend-laravel/app/Http/Controllers/PropertyController.php:158 | the digits written for a status code read back as that number, so the probe's error message names the status it got |
| `Text.IntToStringValue` | backend-laravel/app/Http/Controllers/PropertyController.php:158 | the text written for any integer status reads back as its magnitude, after a minus sign when it is negative |
| `PropertyController.HealthCheck` | backend-laravel/app/Http/Controllers/PropertyController.php:116-173 | `api_service` is always "ok". The database entries depend on the database probe alone. The AI entries depend on the URL and the AI probe alone, and there is no call when the URL is falsy. Otherwise one POST of the fixed sample goes to `{url}/predict/price` with a 5 s timeout. Each error entry carries its message and no message equals "error". The status is 500 exactly when `database` or `ai_service` is "error", and 200 exactly when both are "ok" |
| `Routes.Rejection` | backend-laravel/app/Http/Middleware/ApiKeyMiddleware.php:26-34 | a 401 refusal answers with the invalid-key message and a 500 refusal with the key-check-failure message |
| `Routes.Serve` | backend-laravel/routes/api.php:9-17 | on the three property routes a refused request gets the gate's answer and reaches no action, so no call is made; a forwarded one gets the action's answer; `/health` never consults the key store: it makes the probe call exactly when the URL is set, reports `api_service` as ok and `database` by the database probe, and is 200 exactly when the database probe succeeds, the URL is set and the AI probe answers 2xx |
| `Routes.KeyScenario` | backend-laravel/app/Http/Middleware/ApiKeyMiddleware.php:26-36 | with "abc123" inactive and "xyz789" active, the first key is refused and the second forwarded |
| `AiServiceMain.VerifyApiKey` | ai-services-fastapi/main.py:26-43 | exempt paths and an unset or empty internal key always pass; otherwise the request passes, unchanged, exactly when its header equals the key |
| `AiServiceMain.MissingHeaderRejected` | ai-services-fastapi/main.py:32-39 | with a key configured, a guarded request without the header is refused |
| `AiServiceMain.DocsSubpathGuarded` | ai-services-fastapi/main.py:28 | `/docs/x` is not exempt |
| `AiServiceMain.OpenApiPrefixExempt` | ai-services-fastapi/main.py:28-29 | every path starting with `/openapi.json` passes whatever the key configuration |
| `Predict.NewRequest` | ai-services-fastapi/routers/predict.py:12-20 | omitted fields default to 3 rooms, 2 bathrooms, age 10, location factor 1.0 and not near the MRT |
| `Predict.DefaultFeatures` | ai-services-fastapi/routers/predict.py:16-18 | a request giving only area and address reaches the model with 3 rooms, 2 bathrooms and age 10 |
| `Predict.DefaultsReachModel` | ai-services-fastapi/routers/predict.py:16-18 | a request giving only area and address is priced by the table, or by the fallback when the model fails, by district alone |
| `Predict.TableBase` | ai-services-fastapi/routers/predict.py:85-92 | price per ping is 150 exactly for Da'an/Xinyi; else 120 exactly for Zhongshan/Songshan; else 70 exactly for Wenshan/Beitou; 80 otherwise |
| `Predict.FallbackBase` | ai-services-fastapi/routers/predict.py:81 | after a model failure the price per ping is 150 exactly for Da'an/Xinyi and 80 otherwise |
| `Predict.ModelFeatures` | ai-services-fastapi/routers/predict.py:64-73 | the model sees area, rooms, bathrooms and age from the request, and (1.5, 1) for Da'an/Xinyi, (1.2, 0) for Zhongshan, (1.0, 0) otherwise as location factor and MRT flag |
| `Predict.PredictPrice` | ai-services-fastapi/routers/predict.py:44-98 | a 400 exactly when area is at most 0. Otherwise: area times the table price without a model; the model's price when it answers; area times the fallback price when it fails |
| `Predict.SimulatedPriceBounds` | ai-services-fastapi/routers/predict.py:85-94 | without a model an accepted request is priced between 70 and 150 times its area, hence positively |
| `Predict.FallbackFlattensZhongshan` | ai-services-fastapi/routers/predict.py:81-94 | a Zhongshan address is priced at 80 per ping after a model failure but 120 without a model |
| `Predict.ClientFeaturesIgnored` | ai-services-fastapi/routers/predict.py:64-73 | the request's own location factor and MRT flag never change the prediction |
| `Predict.DaanAddressesPremium` | ai-services-fastapi/routers/predict.py:66-68 | any address containing 大安區 is in the top price tier, and every request with such an address reaches the model with location factor 1.5 and marked near the MRT |
| `Generate.GetFormatted` | ai-services-fastapi/routers/generate.py:36-38 | a dictionary default applies only when the key is absent; a present value, None or empty included, is formatted as it is |
| `Generate.BasePrompt` | ai-services-fastapi/routers/generate.py:35-44 | the prompt starts with the address line and ends with the fixed instruction, and is the three header lines, the extra line when `prompt` is non-empty, then the instruction |
| `Generate.ExtraLineIffPrompt` | ai-services-fastapi/routers/generate.py:41-42 | the prompt holds text between header and instruction exactly when `prompt` is non-empty, and that text is the extra-requirement line |
| `Generate.PresentAddressNotDefaulted` | ai-services-fastapi/routers/generate.py:36 | an address present as an empty string or as None is formatted as it is ("" or "None"), not replaced by 不詳地點 |
| `Generate.GenerateContent` | ai-services-fastapi/routers/generate.py:25-79 | an empty OpenAI key means no call and a 500 with the generic "unexpected" detail, because the route's own exception is caught by `except Exception`. Otherwise the prompt is sent. The reply is the stripped content exactly when the call returns text. Authentication failure gives 401, rate limiting 429, and anything else, missing content included, 500 |
| `Generate.GeneratedContentStripped` | ai-services-fastapi/routers/generate.py:63 | the relayed content has no whitespace at either end, and stripping it again changes nothing |

## Left out

- Effects are inputs: the database queries (`findOrFail`, `paginate`, `getPdo`), the Laravel HTTP client, the OpenAI client and the XGBoost model. Timeouts appear only as the numbers in the outbound call.
- ApiKeyMiddleware.ActiveKeyExists: the `api_keys` existence query is computed over the rows with exact, case-sensitive string equality. In the program the database's collation decides `where('key', ...)`, and a case-insensitive collation would also match keys that differ only in letter case.
- PropertyController.Index: pagination arithmetic belongs to Laravel's paginator. `Index` takes its outcome as an input function (a page, an `\Exception` or a PHP `\Error`), and states the defaults and the response built from each outcome. Which query texts make the paginator raise an `\Error` is not modelled; a non-numeric `page` or `limit` is one, through the `TypeError` in its offset arithmetic. The body of the framework's own 500 depends on its debug setting and is the single value `FrameworkErrorBody`.
- Logging is not modelled as output. Only one log line changes a response: the backend's error log for a failed content reply (`PropertyController.php:94`). It cannot interpolate an array `detail`, and `PropertyController.GenerateContent` models the 500 that follows.
- AiServiceMain.VerifyApiKey: assumes the client address is present. Both of the gate's log lines read `request.client.host`. When the server passes no client address (a Unix socket, for instance), `request.client` is None and the request ends in a 500. The model answers `Reject401` or `CallNext` there.
- `Predict.PredictPrice`: returns the price before `round(float(...), 2)`. Area and prices are reals, so float rounding and NaN are not modelled. A NaN area would pass the `<= 0` guard in Python.
- `Predict.PredictPrice`: the model's output is an input (`Features -> Option<real>`). Model loading at import time is the `Model` value.
- Laravel's `env()` turns the strings "true", "false", "null" and "(empty)" into other values. This is not modelled: the URL and key are taken as given strings or null.
- Header names are compared as lower-cased map keys. Repeated headers are not modelled.
- The `/user` route (Sanctum session authentication) is not part of this model.
- How Starlette delivers an `HTTPException` raised inside an HTTP middleware is not modelled. The AI-service gate's refusal is the decision `Reject401`.
- Constructing the OpenAI client fails when no key is set at all. That happens at import time inside the client library and is not modelled. `Generate.GenerateContent` takes the client's key string, and an empty key stands for "not configured".
- Python's `str()` of the values in `property_data` is not computed. A number (`PyNumber`) and a nested list or dict (`PyNested`) carry the text Python prints for them, its `repr`.
- On the backend, nested JSON arrays and objects inside a decoded body are kept as their text (`JComposite`), not decoded further.
- Record timestamps and the ORM casts of `Property` are not modelled.
- The random training script, the seeders, the migrations' schema (beyond key uniqueness and the `is_active` default) and the Vue frontend are outside the modelled core.
