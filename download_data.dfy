/**
 * `downloadData` of the S3 storage provider: it creates one abort controller
 * per call, hands `createDownloadTask` a job that reads the object with the
 * controller's signal and an `onCancel` callback that aborts that controller.
 * The job resolves the S3 configuration, reads the object at the resolved
 * prefix followed by the caller's key, and renames the response fields into
 * the result.
 *
 * The collaborators (`resolveS3ConfigAndInput` and `getObject`) are fields of
 * `DownloadCollaborators`; the job returns, besides its outcome, the calls it
 * made to them in order.
 */
module DownloadDataApi {
  import opened StorageCommon
  import opened Abort

  /** Stands for the caller's progress callback, which the job only hands on. */
  datatype ProgressListener = ProgressListener(id: nat)

  /** The transfer options; besides `onProgress` only the config resolver reads them. */
  datatype TransferOptions = TransferOptions(accessLevel: Option<AccessLevel>, onProgress: Option<ProgressListener>)

  /** The request: the caller's logical key and the optional transfer options. */
  datatype DownloadDataRequest = DownloadDataRequest(key: string, options: Option<TransferOptions>)

  /** The service-client configuration returned by the resolver; its contents are opaque here. */
  datatype S3Config = S3Config(region: string, settings: map<string, string>)

  /** What `resolveS3ConfigAndInput` returns: bucket, key prefix and client configuration. */
  datatype ResolvedS3Config = ResolvedS3Config(bucket: string, keyPrefix: string, s3Config: S3Config)

  /**
   * `{ ...s3Config, abortSignal, onDownloadProgress }`: the resolved client
   * configuration with the two per-call fields laid over it.
   */
  datatype GetObjectConfig = GetObjectConfig(base: S3Config, abortSignal: AbortSignal, onDownloadProgress: Option<ProgressListener>)

  /** The object's content, as the body stream delivers it. */
  datatype Body = Body(bytes: seq<bv8>)

  /** The `getObject` response fields the job reads. */
  datatype GetObjectOutput = GetObjectOutput(
    body: Option<Body>,
    lastModified: Option<int>,
    contentLength: Option<int>,
    eTag: Option<string>,
    metadata: Option<map<string, string>>,
    versionId: Option<string>,
    contentType: Option<string>)

  /** The job's result record. */
  datatype DownloadDataResult = DownloadDataResult(
    key: string,
    body: Option<Body>,
    lastModified: Option<int>,
    size: Option<int>,
    contentType: Option<string>,
    eTag: Option<string>,
    metadata: Option<map<string, string>>,
    versionId: Option<string>)

  /** A call the job makes to a collaborator. */
  datatype DownloadCall =
    | ResolveS3ConfigAndInput(options: Option<TransferOptions>)
    | GetObject(config: GetObjectConfig, input: GetObjectInput)

  /**
   * The collaborators of the job: the config resolver (over the global Amplify
   * configuration, which is folded into the function) and the object read.
   * Either may throw; the message of what they throw is the `Failure` value.
   */
  datatype DownloadCollaborators = DownloadCollaborators(
    resolveS3ConfigAndInput: Option<TransferOptions> -> Result<ResolvedS3Config, string>,
    getObject: (GetObjectConfig, GetObjectInput) -> Result<GetObjectOutput, string>)

  /** The object key sent to the service: the resolved prefix followed by the caller's key, unaltered. */
  function StorageKey(keyPrefix: string, key: string): (finalKey: string)
    ensures |finalKey| == |keyPrefix| + |key|
    ensures finalKey[..|keyPrefix|] == keyPrefix
    ensures finalKey[|keyPrefix|..] == key
  {
    keyPrefix + key
  }

  /**
   * The job does not check the key: an empty key reads the object named by the
   * prefix alone, where `getUrl` would fail with `NoKey`.
   */
  lemma EmptyKeyReadsPrefix(keyPrefix: string)
    ensures StorageKey(keyPrefix, "") == keyPrefix
  {
  }

  /** `downloadDataOptions?.onProgress`. */
  function ProgressListenerOf(options: Option<TransferOptions>): (listener: Option<ProgressListener>) {
    if options.Some? then options.value.onProgress else None
  }

  /** The request configuration the job hands to `getObject`. */
  function GetObjectConfigFor(resolved: ResolvedS3Config, abortSignal: AbortSignal, options: Option<TransferOptions>): (config: GetObjectConfig)
    ensures config.base == resolved.s3Config
    ensures config.abortSignal == abortSignal
    ensures options.Some? ==> config.onDownloadProgress == options.value.onProgress
    ensures options.None? ==> config.onDownloadProgress.None?
  {
    GetObjectConfig(resolved.s3Config, abortSignal, ProgressListenerOf(options))
  }

  /** The response a result record was made from: the renaming read backwards. */
  function ResponseOf(result: DownloadDataResult): (response: GetObjectOutput) {
    GetObjectOutput(result.body, result.lastModified, result.size, result.eTag,
                    result.metadata, result.versionId, result.contentType)
  }

  /**
   * The result record built from the caller's logical key and the response.
   * It keeps every response field: the response can be read back from it.
   */
  function DownloadResultOf(key: string, response: GetObjectOutput): (result: DownloadDataResult)
    ensures result.key == key
    ensures ResponseOf(result) == response
  {
    DownloadDataResult(
      key := key,
      body := response.body,
      lastModified := response.lastModified,
      size := response.contentLength,
      contentType := response.contentType,
      eTag := response.eTag,
      metadata := response.metadata,
      versionId := response.versionId)
  }

  /** A result record is determined by its key and the response read back from it. */
  lemma ResultFromItsResponse(result: DownloadDataResult)
    ensures DownloadResultOf(result.key, ResponseOf(result)) == result
  {
  }

  /**
   * The job: resolve the configuration, then read the object with the given
   * signal, then build the result. A failing call ends the job with its error.
   */
  method DownloadDataJob(request: DownloadDataRequest, abortSignal: AbortSignal, env: DownloadCollaborators)
    returns (result: Result<DownloadDataResult, string>, calls: seq<DownloadCall>)
    ensures 1 <= |calls| <= 2 && calls[0] == ResolveS3ConfigAndInput(request.options)
    ensures env.resolveS3ConfigAndInput(request.options).Failure? ==>
      |calls| == 1 && result == Failure(env.resolveS3ConfigAndInput(request.options).error)
    ensures env.resolveS3ConfigAndInput(request.options).Success? ==>
      var resolved := env.resolveS3ConfigAndInput(request.options).value;
      |calls| == 2 &&
      calls[1] == GetObject(GetObjectConfigFor(resolved, abortSignal, request.options),
                            GetObjectInput(resolved.bucket, StorageKey(resolved.keyPrefix, request.key)))
    ensures |calls| == 2 ==>
      var response := env.getObject(calls[1].config, calls[1].input);
      result == if response.Success? then Success(DownloadResultOf(request.key, response.value))
                else Failure(response.error)
  {
    calls := [ResolveS3ConfigAndInput(request.options)];
    var resolved := env.resolveS3ConfigAndInput(request.options);
    if resolved.Failure? {
      return Failure(resolved.error), calls;
    }
    var finalKey := StorageKey(resolved.value.keyPrefix, request.key);
    var config := GetObjectConfig(resolved.value.s3Config, abortSignal, ProgressListenerOf(request.options));
    var input := GetObjectInput(resolved.value.bucket, finalKey);
    calls := calls + [GetObject(config, input)];
    var response := env.getObject(config, input);
    if response.Failure? {
      return Failure(response.error), calls;
    }
    result := Success(DownloadResultOf(request.key, response.value));
  }

  /**
   * What `downloadData` hands to `createDownloadTask`: the job, closed over the
   * request and the controller's signal, and `onCancel`, closed over the
   * controller. `createDownloadTask` itself is not part of this model.
   */
  class DownloadTask {
    const request: DownloadDataRequest
    /** The signal the job closure captured. */
    const jobSignal: AbortSignal
    /** The controller the `onCancel` closure captured. */
    const controller: AbortController

    /** The job reads with the very signal that `onCancel` aborts. */
    ghost predicate Valid()
      reads this
    {
      jobSignal == controller.signal
    }

    constructor (request: DownloadDataRequest, controller: AbortController)
      ensures this.request == request && this.controller == controller
      ensures Valid()
    {
      this.request := request;
      this.controller := controller;
      jobSignal := controller.signal;
    }

    /** `onCancel(abortErrorOverwrite?)`: abort the controller with the caller's error, if any. */
    method OnCancel(abortErrorOverwrite: Option<ErrorValue>)
      modifies controller.signal
      ensures controller.signal.reason == SignalAbort(old(controller.signal.reason), abortErrorOverwrite)
    {
      controller.Abort(abortErrorOverwrite);
    }

    /** Run the job; the object read is given the signal `onCancel` aborts. */
    method Job(env: DownloadCollaborators) returns (result: Result<DownloadDataResult, string>, calls: seq<DownloadCall>)
      requires Valid()
      ensures 1 <= |calls| <= 2 && calls[0] == ResolveS3ConfigAndInput(request.options)
      ensures env.resolveS3ConfigAndInput(request.options).Failure? ==>
        |calls| == 1 && result == Failure(env.resolveS3ConfigAndInput(request.options).error)
      ensures env.resolveS3ConfigAndInput(request.options).Success? ==>
        var resolved := env.resolveS3ConfigAndInput(request.options).value;
        |calls| == 2 &&
        calls[1] == GetObject(GetObjectConfigFor(resolved, controller.signal, request.options),
                              GetObjectInput(resolved.bucket, StorageKey(resolved.keyPrefix, request.key)))
      ensures |calls| == 2 ==>
        var response := env.getObject(calls[1].config, calls[1].input);
        result == if response.Success? then Success(DownloadResultOf(request.key, response.value))
                  else Failure(response.error)
    {
      result, calls := DownloadDataJob(request, jobSignal, env);
    }
  }

  /** `downloadData`: one new controller per call, its signal shared by the job and `onCancel`. */
  method DownloadData(request: DownloadDataRequest) returns (task: DownloadTask)
    ensures fresh(task) && fresh(task.controller) && fresh(task.controller.signal)
    ensures task.request == request && task.Valid()
    ensures !task.controller.signal.Aborted()
  {
    var abortController := new AbortController();
    task := new DownloadTask(request, abortController);
  }
}
