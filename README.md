# S3 presigned URLs and cancelable downloads, modelled in Dafny

This project models two operations of the S3 provider in the Amplify JS
storage package:

- `getUrl` makes a presigned read URL for an object. It resolves the
  credentials and the storage configuration. It checks that a key was given
  and, if asked, that the object exists. It computes the object key for the
  access level and the target identity. It reconciles the requested URL
  lifetime (in seconds, 900 by default) with the time left before the
  credentials lapse. It checks the result against a ceiling and asks the
  signer for the URL.
- `downloadData` makes a download task. It creates one abort controller per
  call. The task's job reads the object with the controller's signal, and its
  `onCancel` callback aborts that same controller. The job resolves the S3
  configuration and reads the object at the resolved prefix followed by the
  caller's key. It then renames the response fields into the result record.

Files:

- `common.dfy` (module `StorageCommon`): optional values, results, access
  levels, error kinds, the bucket/key pair.
- `abort.dfy` (module `Abort`): the DOM `AbortController` and `AbortSignal`.
  Aborting follows the "signal abort" algorithm of section 3.2 of the WHATWG
  DOM Standard. A signal that is already aborted is left as it is. A missing
  reason becomes an "AbortError".
- `get_url.dfy` (module `GetUrlApi`): the lifetime reconciliation as
  functions, and `getUrl` as a method.
- `download_data.dfy` (module `DownloadDataApi`): the key and result shaping
  as functions, the job as a method, and the task as a class.

Each collaborator the code calls is a field of a collaborator record: a value
for a call without arguments, a total function otherwise. The collaborators
are the credential and config resolvers, `getProperties`, `getKeyWithPrefix`,
the signer and `getObject`. An error a collaborator throws is the `Failure`
value of its result, except for `getProperties`: its result is `None` when the
object exists and `Some` of the thrown error otherwise. `GetUrl`,
`DownloadDataJob` and `DownloadTask.Job` return the list of collaborator calls
they made, in order, so their contracts can state the ordering. The two readings of
`Date.now()` in `getUrl` are two inputs (`ClockReads`): one at line 79 and one
at line 94. Times are integers, in milliseconds for clock readings and
credential expirations and in seconds for URL lifetimes.

## Oddities of the code that the model keeps

The model follows the code as written in each case below.

- The ceiling `MAX_URL_EXPIRATION` is seven days written in milliseconds
  (604800000). It is compared with a lifetime in seconds. So any lifetime
  under about 7000 days passes. `CeilingAdmitsEightDays` shows an eight-day
  lifetime passing.
- `expiresAt` adds the lifetime in seconds to a clock reading in
  milliseconds. `GetUrl` states this as written. The comment at
  packages/storage/src/providers/s3/apis/getUrl.ts:91 calls `expiresAt` the
  minimum of the credential expiration and the URL expiration, which the sum
  is not.
- The signer gets the requested lifetime, not the reconciled one. `GetUrl`
  states this as written.
- `expiresAt` uses a second clock reading, taken after signing. It does not
  reuse the reading taken during reconciliation.
- `downloadData`'s job never checks the key, although the doc comment at
  packages/storage/src/providers/s3/apis/downloadData.ts:19-21 promises a
  validation error for an undefined key. An empty key reads the object named
  by the prefix alone, where `getUrl` fails with `NoKey`.
  `EmptyKeyReadsPrefix` shows the key sent in that case.
- The existence check is called with the bare key only. It gets neither the
  access level nor the target identity that the URL's key is computed from.

## Model

| member | source | states |
|---|---|---|
| `GetUrlApi.RequestedExpiration` | packages/storage/src/providers/s3/apis/getUrl.ts:70 | The requested lifetime is `expiresIn` whenever one is given, 0 included, and 900 seconds otherwise. |
| `GetUrlApi.CredentialSecondsRemaining` | packages/storage/src/providers/s3/apis/getUrl.ts:77-80 | The seconds left are the floor of (expiration − now)/1000. The result times 1000 is at most the milliseconds left, and the milliseconds left are less than that plus 1000. |
| `GetUrlApi.EffectiveExpiration` | packages/storage/src/providers/s3/apis/getUrl.ts:70-85 | The reconciled lifetime never exceeds the requested one. With no credential expiration it is the requested one. Otherwise it never exceeds the seconds left and equals one of the two: it is their minimum. |
| `GetUrlApi.ExpiredCredentialsPassCeiling` | packages/storage/src/providers/s3/apis/getUrl.ts:77-90 | Credentials that have already lapsed give a lifetime of at most 0, and the ceiling check lets it through. |
| `GetUrlApi.CredentialsShortenLifetime` | packages/storage/src/providers/s3/apis/getUrl.ts:77-85 | A requested hour with credentials lapsing 200 seconds from now becomes 200 seconds. |
| `GetUrlApi.CeilingAdmitsEightDays` | packages/storage/src/providers/s3/apis/getUrl.ts:87-90 | The ceiling, in milliseconds, lets through an eight-day lifetime in seconds. |
| `GetUrlApi.AccessLevelFor` | packages/storage/src/providers/s3/apis/getUrl.ts:42 | The access level is the caller's when given; the default applies only when none is given. |
| `GetUrlApi.TargetIdentityFor` | packages/storage/src/providers/s3/apis/getUrl.ts:49-56 | The key's identity is the caller's target identity exactly when the caller asked for `protected`. Otherwise it is the resolved identity. |
| `GetUrlApi.DefaultProtectedKeepsOwnIdentity` | packages/storage/src/providers/s3/apis/getUrl.ts:42-56 | With a `protected` default and no level given, the key is at the `protected` level but uses the caller's own identity. |
| `GetUrlApi.GetUrl` | packages/storage/src/providers/s3/apis/getUrl.ts:36-96 | Credentials are resolved first, then the configuration. A call that reaches the ceiling check makes each call once, in order, and no other: the two resolutions, the existence check exactly when asked for, the key computation, then the signer when the key computation did not throw and the ceiling check passes. A throwing key computation ends the call with its error, after that call and before the signer. Calls that fail earlier have their whole call list fixed too. Each resolver failure ends the call with its error. A missing or empty key fails with `NoKey` right after the two resolutions. The existence check runs next, with the bare key, exactly when asked for, and its failure ends the call. The signer is called at most once, last, and exactly when every earlier step passed and the lifetime is below the ceiling. Otherwise the call fails with `UrlExpirationMaxLimitExceed`. The signer gets the bucket, the computed key and the requested lifetime. A successful result holds the signer's URL and `expiresAt` = second clock reading + reconciled lifetime. |
| `Abort.SignalAbort` | packages/storage/src/providers/s3/apis/downloadData.ts:33 | After an abort the signal is aborted. An active signal takes the given reason, or "AbortError" when none is given. Aborting an aborted signal keeps its reason. |
| `Abort.AbortedSignalIgnoresAbort` | packages/storage/src/providers/s3/apis/downloadData.ts:32-34 | Any number of further aborts leave an aborted signal's reason unchanged. |
| `Abort.FirstAbortWins` | packages/storage/src/providers/s3/apis/downloadData.ts:32-34 | Aborting an active signal several times has the effect of aborting it once. The reason is the first call's, or "AbortError" when that call gave none. |
| `Abort.AbortSignal.constructor` | packages/storage/src/providers/s3/apis/downloadData.ts:28 | A new signal is not aborted. |
| `Abort.AbortController.constructor` | packages/storage/src/providers/s3/apis/downloadData.ts:28 | A new controller owns a fresh, active signal. |
| `Abort.AbortController.Abort` | packages/storage/src/providers/s3/apis/downloadData.ts:33 | `abort(reason)` sets the signal's reason only if the signal was active. The signal is aborted afterwards. Nothing else changes. |
| `DownloadDataApi.StorageKey` | packages/storage/src/providers/s3/apis/downloadData.ts:53 | The object key is the prefix followed by the caller's key, unaltered. Its first part is the prefix, the rest is the key, and its length is the sum. |
| `DownloadDataApi.EmptyKeyReadsPrefix` | packages/storage/src/providers/s3/apis/downloadData.ts:53 | With an empty key, the object key sent is the prefix alone: the job does no key check. |
| `DownloadDataApi.GetObjectConfigFor` | packages/storage/src/providers/s3/apis/downloadData.ts:64-68 | The request configuration carries the resolved client configuration, the given signal and the caller's `onProgress` unchanged, or none without options. |
| `DownloadDataApi.DownloadResultOf` | packages/storage/src/providers/s3/apis/downloadData.ts:55-85 | The result's key is the caller's logical key. Every response field is kept: reading the renaming backwards gives the response back. |
| `DownloadDataApi.ResultFromItsResponse` | packages/storage/src/providers/s3/apis/downloadData.ts:74-85 | The renaming is also onto: every result record is the one built from its key and its response. |
| `DownloadDataApi.DownloadDataJob` | packages/storage/src/providers/s3/apis/downloadData.ts:39-86 | The config is resolved first, and if that fails the job ends with its error and `getObject` is never called. Otherwise `getObject` is called once, with the resolved bucket, prefix + key, the given signal and the caller's progress callback. The job's result is the renamed response or `getObject`'s error. |
| `DownloadDataApi.DownloadTask.constructor` | packages/storage/src/providers/s3/apis/downloadData.ts:30-35 | The job captures the controller's own signal, the one `onCancel` aborts. |
| `DownloadDataApi.DownloadTask.OnCancel` | packages/storage/src/providers/s3/apis/downloadData.ts:32-34 | `onCancel(reason)` aborts the task's controller with that reason. A second call leaves the first reason in place. |
| `DownloadDataApi.DownloadTask.Job` | packages/storage/src/providers/s3/apis/downloadData.ts:31 | The task runs `downloadDataJob(request, controller.signal)`. It resolves first; a resolver failure ends it with that error and no `getObject` call. Otherwise `getObject` is called once, with the resolved bucket, prefix + key, the caller's progress callback and the signal of the controller `onCancel` aborts. The result is the renamed response under the caller's key, or `getObject`'s error. |
| `DownloadDataApi.DownloadData` | packages/storage/src/providers/s3/apis/downloadData.ts:25-37 | Each call creates a new controller with an active signal. The job and `onCancel` share that signal. |

## Left out

- The `console.log` diagnostics of `getUrl`, and the clock reading made only for them, are logging.
- `createDownloadTask` lies outside the two modelled files and is not part of this model. Its result promise, task state machine and progress delivery are not modelled. The model covers what `downloadData` hands to it: the job and `onCancel`.
- `getKeyWithPrefix`, `resolveCredentials`, `resolveStorageConfig`, `resolveS3ConfigAndInput`, `getProperties`, `getPresignedGetObjectUrl` and `getObject` lie outside the two modelled files and are not part of this model. They are treated as inputs: outcomes or total functions.
- Promise scheduling is not modelled. Neither is the interruption of a network read in flight when the signal is aborted, nor the `abort` event. These are concurrency and I/O. `getObject`'s outcome is a function of its arguments alone.
- `expiresIn` and the clock are JavaScript numbers, modelled as integers. Fractional and NaN values are not modelled. Neither is an invalid `Date`, whose `getTime()` is NaN.
- A `Date` is modelled by its millisecond value only.
- The response fields other than the seven `downloadData` reads are not modelled. The job ignores them.
- The non-null cast on `Body` has no runtime effect, so a missing body stays missing in the result.
- DownloadDataApi.DownloadDataJob: a missing (`undefined`) key is not modelled; the key is a string. JavaScript would read `keyPrefix + "undefined"`. The validation error for an undefined key, which the doc comment at downloadData.ts:19-21 promises, is not raised by this file's code.
- A missing `req` (`req?.options`) is not modelled. Both resolvers still run first; destructuring `req` at line 42 of `getUrl.ts` then throws a TypeError, where the model has its `NoKey` check.
- The S3 service name is an input of `getUrl`, because its definition is not part of this model.
- The access levels are `guest`, `protected` and `private`. The code tests only for `protected`.
