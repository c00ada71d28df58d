# Flicks background tasks and the celery webhook task, in Dafny

This project models two small, sequential pieces of the firefox-flicks
repository and proves what they promise.

**The webhook task of celery (`celery.task.http`).** A task is dispatched to a
URL. For `GET` and `HEAD` its keyword arguments are merged into the URL's
query; for every other method they become an encoded request body. The
remote side answers with a JSON object. `extract_response` turns that answer
into the task's return value (`status` is `"success"`), a
`RemoteExecuteError` (`status` is `"failure"`), an `UnknownStatusError` (any
other status), or an `InvalidResponseError` (empty answer or undecodable
JSON). `MutableURL` keeps a URL as its six parts, with the query as a
dictionary. It is rendered back with `;params`, `?query` and `#fragment` only
when those parts are non-empty. `HttpDispatchTask.run` falls back to the
task's own URL and method when its arguments are falsy. The class docstring
calls the task's `method` attribute the default method, but `run` declares
`method='GET'`, so the attribute is used only when a caller passes a falsy
method explicitly; the model follows the code.

**The video tasks of flicks (`flicks/videos/tasks.py`).** `process_video`
looks up a video and does nothing if there is none. Otherwise it makes these
calls in order:

1. push the title to the video platform;
2. push a composed description;
3. add the video to its region's channel, when the region has one;
4. tag the video with the owner's country;
5. save the video with `processed` set;
6. email every moderator once.

`process_deletion` deletes the video on the platform and then sends the
owner a rejection notice. A failing call raises and ends the task.

Modules:

- `Wrappers` (wrappers.dfy): `Option` and `Result`.
- `Webhook` (webhook.dfy): JSON values, the exception hierarchy, `ExtractResponse`, and the reply format a webhook sends.
- `WebhookUrl` (webhook_url.dfy): URL parts, `utf8dict`, `dict(parse_qsl(...))`, the filter-and-join rendering of `__str__`, and the `MutableUrl` class.
- `WebhookDispatch` (webhook_dispatch.dfy): where the arguments are placed in the request, the `HttpDispatch` and `HttpDispatchTask` classes.
- `Moderation` (moderation.dfy): the moderator query (a join that can repeat a user, then `.distinct()`) and the recipient list.
- `VideoTasks` (video_tasks.dfy): the call trace, the plans of both tasks, what running a plan until its first failure gives, and the `Worker` class.

How the outside world is modelled:

- Library calls are parameters. These are `urlparse`, `parse_qsl` and `urlencode` (the `UrlLib` record), the JSON decoder `loads`, `make_request`, and `render_to_string`. Nothing is assumed about the values they return, but they are total: they always return a value.
- Whether a call to the video platform, the store or the mailer succeeds is an `accepts` parameter.
- The Video table is a `map` field of `Worker`, keyed by id. The calls made are a `seq<Call>` field of `Worker`. The user and group tables and the settings are constant fields.

## Model

| member | source | states |
|---|---|---|
| `Webhook.ExtractResponse` | vendor-local/lib/python/celery/task/http.py:64-80 | an empty response gives `InvalidResponseError('Empty response')`; a success result is exactly `payload['retval']` of a decoded payload whose status is `"success"`; every error is an InvalidResponseError (or its subclass), a RemoteExecuteError or a KeyError |
| `Webhook.EmptyResponseNeverDecodes` | vendor-local/lib/python/celery/task/http.py:66-67 | for an empty response the outcome is the same whatever the decoder does, so decoding is never attempted |
| `Webhook.ExtractResponseCases` | vendor-local/lib/python/celery/task/http.py:64-80 | every outcome with its exact condition, both directions: return value, InvalidResponseError (empty or decode failure), RemoteExecuteError with `payload.get('reason')`, UnknownStatusError with the status, KeyError for a missing `status` or `retval`; it never ends in a missing-URL error |
| `Webhook.DecodeFailureIsInvalidResponse` | vendor-local/lib/python/celery/task/http.py:68-72 | a decoder ValueError is re-raised as InvalidResponseError carrying its message |
| `Webhook.ErrorHierarchy` | vendor-local/lib/python/celery/task/http.py:30-39 | UnknownStatusError is a kind of InvalidResponseError; RemoteExecuteError is not |
| `Webhook.ReplyPayload` | vendor-local/lib/python/celery/task/http.py:74-78 | the JSON object a webhook sends always has a `status`, and it is `"success"` exactly for a successful reply |
| `Webhook.ExtractResponseReadsReply` | vendor-local/lib/python/celery/task/http.py:74-78 | decoding a webhook's reply gives back what it sent: the return value, or RemoteExecuteError with the reason, null when the reason is omitted |
| `WebhookUrl.Utf8Dict` | vendor-local/lib/python/celery/task/http.py:42-61 | `utf8dict` preserves every key and value |
| `WebhookUrl.DictOf` | vendor-local/lib/python/celery/task/http.py:105 | every key of the pairs is in `dict(pairs)`, and every entry of `dict(pairs)` is one of the pairs |
| `WebhookUrl.DictOfKeys` | vendor-local/lib/python/celery/task/http.py:105 | the query dictionary has exactly the keys that occur in the parsed query pairs |
| `WebhookUrl.DictOfLastWins` | vendor-local/lib/python/celery/task/http.py:105 | for a repeated key the dictionary keeps the value of its last occurrence |
| `WebhookUrl.NonEmpty` | vendor-local/lib/python/celery/task/http.py:114 | `filter(None, ...)` keeps only non-empty strings and never lengthens the list |
| `WebhookUrl.JoinNonEmpty` | vendor-local/lib/python/celery/task/http.py:114 | filtering out empty components does not change the joined string |
| `WebhookUrl.Render` | vendor-local/lib/python/celery/task/http.py:107-114 | the rendered URL always begins with the scheme followed by `://` |
| `WebhookUrl.RenderLayout` | vendor-local/lib/python/celery/task/http.py:107-114 | the rendered URL is scheme, `://`, netloc, the path or `/` when empty, then `;params`, `?query`, `#fragment` each only when that part is non-empty, in that order |
| `WebhookUrl.MutableUrl.constructor` | vendor-local/lib/python/celery/task/http.py:103-105 | the parts are `urlparse(url)`; the query is `dict(parse_qsl(parts[4]))` |
| `WebhookUrl.MutableUrl.UpdateQuery` | vendor-local/lib/python/celery/task/http.py:152 | `query.update(extra)`: keys of extra are added or overwritten, all other entries kept |
| `WebhookUrl.MutableUrl.ToString` | vendor-local/lib/python/celery/task/http.py:107-114 | `str(url)` renders the parts around the re-encoded query dictionary, laid out as above |
| `WebhookDispatch.PlannedRequest` | vendor-local/lib/python/celery/task/http.py:147-156 | the request keeps the method, and it has no body exactly when the method is GET or HEAD |
| `WebhookDispatch.ParameterPlacement` | vendor-local/lib/python/celery/task/http.py:147-156 | GET and HEAD: kwargs merged into the URL query, overriding existing keys, and no body; any other method: the URL keeps its query and the body is the encoded kwargs |
| `WebhookDispatch.GetMethodsExactly` | vendor-local/lib/python/celery/task/http.py:26 | only the exact names `GET` and `HEAD` count as GET methods |
| `WebhookDispatch.OrElse` | vendor-local/lib/python/celery/task/http.py:191-192 | `arg or fallback` is one of its two operands, and it is truthy exactly when one of them is |
| `WebhookDispatch.OrElseFallback` | vendor-local/lib/python/celery/task/http.py:191-192 | `arg or fallback` is the argument when it is truthy and the fallback otherwise |
| `WebhookDispatch.HttpDispatch.constructor` | vendor-local/lib/python/celery/task/http.py:133-136 | the dispatcher keeps the URL, method and task kwargs it is given |
| `WebhookDispatch.HttpDispatch.Dispatch` | vendor-local/lib/python/celery/task/http.py:147-156 | the request made is the planned one (parameter placement above), and the result is `extract_response` of the raw response |
| `WebhookDispatch.HttpDispatchTask.constructor` | vendor-local/lib/python/celery/task/http.py:186-187 | the task keeps its default URL and method |
| `WebhookDispatch.HttpDispatchTask.Run` | vendor-local/lib/python/celery/task/http.py:190-193 | a truthy `url` argument is used, otherwise the task's URL; the same for the method; with no URL at all no request is made; otherwise the result is the dispatch of the chosen URL and method |
| `WebhookDispatch.DefaultMethodOverridesTask` | vendor-local/lib/python/celery/task/http.py:190-192 | a caller of `run` that names no method gets GET, with the arguments in the URL, whatever method the task declares |
| `Moderation.Qualifies` | flicks/videos/tasks.py:47-48 | a user matches the filter exactly when it holds the permission itself or one of its groups grants it, whatever the order of its groups |
| `Moderation.GrantedByGroupMember` | flicks/videos/tasks.py:47 | a group grants the permission at some position of the user's group list exactly when some group in the list grants it |
| `Moderation.GroupRows` | flicks/videos/tasks.py:47 | the join on groups gives at most one row per group, and every row is the user |
| `Moderation.JoinRows` | flicks/videos/tasks.py:47-48 | every row of the join before `.distinct()` is a user of the table |
| `Moderation.Distinct` | flicks/videos/tasks.py:47-48 | `.distinct()` keeps every row and adds none, and keeps each one once |
| `Moderation.GroupRowsMembers` | flicks/videos/tasks.py:47 | the join on groups lists a user exactly when one of its groups grants the permission |
| `Moderation.JoinRowsMembers` | flicks/videos/tasks.py:47-48 | the joined rows hold exactly the users that have the permission directly or through a group |
| `Moderation.Moderators` | flicks/videos/tasks.py:46-48 | the moderators are, without duplicates, exactly the users holding the permission directly or through a group |
| `Moderation.Emails` | flicks/videos/tasks.py:55 | one address per moderator, in order |
| `Moderation.Recipients` | flicks/videos/tasks.py:46-55 | one address per distinct moderator, and every address belongs to a user holding the review permission |
| `Moderation.RecipientsOnePerModerator` | flicks/videos/tasks.py:46-55 | each qualifying user receives the email at its address once; every address belongs to a qualifying user |
| `Moderation.EmailsDistinct` | flicks/videos/tasks.py:55 | distinct users from a table where no two users share an address give distinct addresses |
| `Moderation.RecipientsDistinct` | flicks/videos/tasks.py:55 | when no two users share an address, no address is repeated |
| `VideoTasks.ComposedDescription` | flicks/videos/tasks.py:27-29 | the description has the title first and the video description last, with " by ", the display name and a blank line (six characters of separators) between |
| `VideoTasks.ModerationSubject` | flicks/videos/tasks.py:50-51 | the subject is the title in back-quotes, between the fixed prefix `[flicks-moderation] ` and the suffix ` is ready for review` |
| `VideoTasks.SyncPlan` | flicks/videos/tasks.py:24-55 | `process_video` plans six calls when the region has a channel and five otherwise; the save of the processed video comes second to last and the email last |
| `VideoTasks.DeletionPlan` | flicks/videos/tasks.py:59-61 | `process_deletion` plans two calls: the delete on the platform first, which is its only platform call, then the rejection notice |
| `VideoTasks.Attempted` | flicks/videos/tasks.py:17-61 | the calls a run makes are a prefix of the plan, and at least one call is made when the plan is not empty |
| `VideoTasks.FirstRejected` | flicks/videos/tasks.py:17-61 | the call a task raises at is a call of the plan that fails |
| `VideoTasks.AttemptedIsPrefix` | flicks/videos/tasks.py:17-61 | a task makes a prefix of its planned calls; all calls made but the last succeeded; it raises exactly at a failing last call, otherwise it made every call |
| `VideoTasks.FailureAborts` | flicks/videos/tasks.py:17-61 | after the first failing call nothing more is done, and the task raises at that call |
| `VideoTasks.AttemptedConcat` | flicks/videos/tasks.py:17-61 | a failure in one part of a task ends the run there; otherwise the next part runs |
| `VideoTasks.SyncPlanOrder` | flicks/videos/tasks.py:24-55 | `process_video` calls title, description, channel, tags, the save of the processed video, then the email, each at most once and in that order; only the channel call can be missing, and it is missing exactly when the region has no channel |
| `VideoTasks.SyncPlanDescription` | flicks/videos/tasks.py:26-30 | the description sent is exactly title + " by " + display name + "\n\n" + description |
| `VideoTasks.SyncPlanChannelAndTags` | flicks/videos/tasks.py:33-39 | the channel call is made exactly when the region maps to a truthy channel id, and with that id; the tag call sends exactly `[country]` |
| `VideoTasks.SyncPlanOneEmail` | flicks/videos/tasks.py:46-55 | exactly one email, the last call, with subject ``[flicks-moderation] `<title>` is ready for review``, the template rendered with the processed video, to each moderator once |
| `VideoTasks.ProcessedOnlyAfterRemoteCalls` | flicks/videos/tasks.py:24-42 | the video is saved as processed only if every platform call succeeded; a failing platform call means no save and no email |
| `VideoTasks.RankedStop` | flicks/videos/tasks.py:24-55 | in a plan ordered by step, a failing call keeps every later step from being made |
| `VideoTasks.CompletedRunSavesAndMails` | flicks/videos/tasks.py:24-55 | `process_video` completes exactly when every call succeeds; it then made every call, saved the processed video and sent the moderation email |
| `VideoTasks.SavedAfterMetadata` | flicks/videos/tasks.py:24-42 | the processed video is saved exactly when every platform call and the save itself succeed |
| `VideoTasks.SyncRun` | flicks/videos/tasks.py:24-55 | a run of `process_video` is the run of its platform calls, followed by the save and the email only when they all succeed |
| `VideoTasks.DeletionOrder` | flicks/videos/tasks.py:59-61 | the delete comes first; if it fails the rejection notice is not sent |
| `VideoTasks.Worker.Step` | flicks/videos/tasks.py:24-61 | one call is recorded in the trace and reports whether it failed |
| `VideoTasks.Worker.Describe` | flicks/videos/tasks.py:24-30 | the title and composed description calls are made as planned, stopping at a failure |
| `VideoTasks.Worker.Classify` | flicks/videos/tasks.py:33-39 | the channel and tag calls are made as planned, stopping at a failure |
| `VideoTasks.Worker.PushMetadata` | flicks/videos/tasks.py:24-39 | all platform calls of `process_video` are made as planned, stopping at a failure |
| `VideoTasks.Worker.SaveAndNotify` | flicks/videos/tasks.py:41-55 | the save and then the email are made, stopping at a failure; the stored video is the processed one exactly when the save succeeded |
| `VideoTasks.Worker.Sync` | flicks/videos/tasks.py:24-55 | for a stored video, the trace grows by the planned calls up to the first failure, the outcome is that failure or completion, and the store holds the processed video exactly when its save succeeded |
| `VideoTasks.Worker.ProcessVideo` | flicks/videos/tasks.py:17-55 | a missing video changes nothing and raises nothing; otherwise the trace grows by the planned calls up to the first failure, the outcome is that failure or completion, and the stored video becomes processed exactly when its save succeeded; a completed run always leaves it stored as processed |
| `VideoTasks.Worker.ProcessDeletion` | flicks/videos/tasks.py:58-61 | the trace grows by delete then rejection notice, stopping at a failure, and the outcome says where it stopped |

## Left out

- `HttpDispatch.make_request`, `http_headers`, `URL.get_async` and `URL.post_async`: network I/O and task-queue dispatch. `make_request` is a parameter of `Dispatch`.
- The internals of `anyjson.loads`, `urlparse`, `parse_qsl` and `urlencode`: library calls, passed in as parameters. Nothing is proved about how a query is ordered or whether parsing and encoding round-trip.
- `maybe_utf8` / `utf8dict`: the Python 2 unicode encoding is not modelled. Text is `seq<char>` and both are value-preserving.
- Payloads that decode to something other than a JSON object (a list, a number): the decoder is modelled as returning an object or a decode error.
- `str(status)` in `UnknownStatusError`: the error carries the status value itself, not its text.
- JSON floating point numbers are not modelled.
- `WebhookDispatch.HttpDispatchTask.Run`: when no URL is given, the source fails inside `urlparse(None)` with an AttributeError. The model reports this as its own `UrlMissing` error.
- `Webhook.ExtractResponse`: besides the three error classes, the code also raises a KeyError when `status` is missing, or when a successful reply lacks `retval`. The model keeps that (`MissingKey`).
- `process_video` assumes every video owner has a profile, and that the permission row `change_video2013` exists. The exceptions the ORM raises when they are missing are not modelled.
- Failures of `render_to_string` are not modelled; it is a total parameter.
- `makeRequest`, `urlparse`, `parseQsl` and `urlencode` are total: exceptions they raise are not modelled. This includes urllib2's HTTPError and URLError from `make_request`, which `dispatch` and `run` let propagate without calling `extract_response`.
- The ORM join is modelled as one row per way a user qualifies. The order of the query's rows is the order of the user table.
- `flicks/base/util.py` (`get_object_or_none`), `flicks/videos/vimeo.py`, `flicks/videos/decorators.py` (`vimeo_task`) and `flicks/videos/util.py` (`send_rejection_email`) are not part of this model. The lookup is a map lookup; platform calls, the save and both emails are entries in the call trace; the retry behaviour of the decorator is not modelled.
- The "processed at most once" idea: the code has no guard that skips an already processed video, so a second run makes all the calls again. The model follows the code.
- `vendor-local/lib/python/celery/contrib/rdb.py`: socket and debugger runtime hooks, all I/O.
- `flicks/base/tests/test_helpers.py` and `flicks/videos/urls.py`: locale-data helpers and URL routing configuration, with no logic of the core.
