/**
 * The transcription side of `lambda_function.py`: the job name derived
 * from the request id, the storage URI handed to the service, and the
 * polling loop `wait_for_job_completion`.
 *
 * The service is not modelled: the status reported by each successive
 * poll is given as a sequence, one element per iteration of the loop
 * (the ten-second sleep before each poll is not modelled).
 */
module Transcribe {
  const ExpectedMediaFormat := "wav"
  const ExpectedLanguageCode := "ja-JP"
  const InitialStatus := "INIT"
  const Completed := "COMPLETED"
  const Failed := "FAILED"

  /** The loop stops at these two statuses and at no other. */
  predicate IsTerminal(status: string)
  {
    status == Completed || status == Failed
  }

  /**
   * `wait_for_job_completion`: poll until the job reports a terminal status
   * and return that status. `polls` is the number of queries made. The
   * loop has no bound, so it ends only if some response is terminal.
   * The postconditions single out the first terminal response, which is
   * `FirstWhere(responses, IsTerminal)` by `FirstWhereUnique`.
   */
  method WaitForJobCompletion(responses: seq<string>) returns (status: string, polls: nat)
    requires exists i :: 0 <= i < |responses| && IsTerminal(responses[i])
    ensures 1 <= polls <= |responses|
    ensures status == responses[polls - 1] && IsTerminal(status)
    ensures status != InitialStatus
    ensures forall j :: 0 <= j < polls - 1 ==> !IsTerminal(responses[j])
  {
    status := InitialStatus;
    polls := 0;
    while true
      invariant polls <= |responses|
      invariant forall j :: 0 <= j < polls ==> !IsTerminal(responses[j])
      decreases |responses| - polls
    {
      status := responses[polls];
      polls := polls + 1;
      if status == Completed || status == Failed {
        break;
      }
    }
  }

  /** `create_unique_job_name`: the request id behind a fixed prefix. */
  function UniqueJobName(requestId: string): (name: string)
    ensures |name| == |requestId| + 4
    ensures name[..4] == "job_" && name[4..] == requestId
  {
    "job_" + requestId
  }

  /** Distinct request ids give distinct job names, so invocations never share a job. */
  lemma UniqueJobNameInjective(id1: string, id2: string)
    requires id1 != id2
    ensures UniqueJobName(id1) != UniqueJobName(id2)
  {
    assert UniqueJobName(id1)[4..] == id1;
    assert UniqueJobName(id2)[4..] == id2;
  }

  const S3UriPrefix := "https://s3.amazonaws.com/"

  /** `create_media_file_uri`: the path-style URI of the re-stored attachment. */
  function MediaFileUri(bucket: string, filename: string): (uri: string)
    ensures |uri| == |S3UriPrefix| + |bucket| + 1 + |filename|
    ensures uri[..|S3UriPrefix|] == S3UriPrefix
    ensures uri[|S3UriPrefix|..|S3UriPrefix| + |bucket|] == bucket
    ensures uri[|S3UriPrefix| + |bucket|] == '/'
    ensures uri[|S3UriPrefix| + |bucket| + 1..] == filename
  {
    S3UriPrefix + bucket + "/" + filename
  }

  /**
   * For bucket names without a slash (as storage bucket names are), the URI
   * determines both the bucket and the object key.
   */
  lemma MediaFileUriInjective(b1: string, f1: string, b2: string, f2: string)
    requires '/' !in b1 && '/' !in b2
    requires MediaFileUri(b1, f1) == MediaFileUri(b2, f2)
    ensures b1 == b2 && f1 == f2
  {
  }

  /** Without that restriction the URI is ambiguous: the slash could belong to either half. */
  lemma MediaFileUriAmbiguousWithSlash()
    ensures MediaFileUri("a/b", "c") == MediaFileUri("a", "b/c")
  {
  }
}
