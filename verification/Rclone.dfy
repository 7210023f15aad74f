/** Backup and restore Jobs: credentials, rclone arguments and the way the remote path is read
    back from a finished Job (internal/controller/s3.go, internal/controller/autoupdate.go). */
module Rclone {
  import opened Wrappers

  /** The data of the S3 credentials Secret; an absent key is an empty string. */
  datatype Secret = Secret(bucket: string, endpoint: string, keyId: string, appKey: string,
                           region: string, provider: string)

  datatype Credentials = Credentials(bucket: string, region: string, provider: string, envAuth: bool)

  /** Reading the Secret: bucket and endpoint are mandatory, the two keys come together or not at all. */
  function ParseSecret(s: Secret): (r: Option<Credentials>)
    ensures r.Some? ==> r.value.bucket == s.bucket != "" && s.endpoint != ""
                        && (r.value.envAuth <==> s.keyId == "") && (s.keyId == "" <==> s.appKey == "")
    ensures r.Some? ==> r.value.region == s.region && r.value.provider == (if s.provider == "" then "Other" else s.provider)
    ensures r.None? ==> s.bucket == "" || s.endpoint == "" || ((s.keyId == "") != (s.appKey == ""))
  {
    if s.bucket == "" || s.endpoint == "" || ((s.keyId == "") != (s.appKey == "")) then None
    else Some(Credentials(s.bucket, s.region, if s.provider == "" then "Other" else s.provider, s.keyId == ""))
  }

  datatype ConditionType = JobComplete | JobFailed | JobOther
  datatype JobCondition = JobCondition(kind: ConditionType, isTrue: bool)

  /** A Job as far as the controller looks at it. */
  datatype Job = Job(args: seq<string>, conditions: seq<JobCondition>)

  datatype Verdict = Unfinished | Completed | Failed

  predicate Decides(c: JobCondition) {
    (c.kind.JobComplete? || c.kind.JobFailed?) && c.isTrue
  }

  /** The verdict of the first condition that decides the Job. */
  function VerdictOf(conditions: seq<JobCondition>): Verdict {
    if conditions == [] then Unfinished
    else if Decides(conditions[0]) then (if conditions[0].kind.JobComplete? then Completed else Failed)
    else VerdictOf(conditions[1..])
  }

  /** isJobFinished: a read-only search loop. */
  method IsJobFinished(job: Job) returns (v: Verdict)
    ensures v == VerdictOf(job.conditions)
    ensures v.Unfinished? <==> forall c :: c in job.conditions ==> !Decides(c)
    ensures !v.Unfinished? ==>
      exists k :: 0 <= k < |job.conditions|
        && Decides(job.conditions[k]) && (v.Completed? <==> job.conditions[k].kind.JobComplete?)
        && forall j :: 0 <= j < k ==> !Decides(job.conditions[j])
  {
    for i := 0 to |job.conditions|
      invariant forall j :: 0 <= j < i ==> !Decides(job.conditions[j])
      invariant VerdictOf(job.conditions) == VerdictOf(job.conditions[i..])
    {
      var c := job.conditions[i];
      if Decides(c) {
        return if c.kind.JobComplete? then Completed else Failed;
      }
    }
    return Unfinished;
  }

  function RemotePrefix(creds: Credentials): string {
    ":s3:" + creds.bucket + "/"
  }

  /** The argument list of buildRcloneJob. */
  function RcloneArgs(creds: Credentials, remotePath: string, isBackup: bool): seq<string> {
    var remote := RemotePrefix(creds) + remotePath;
    var auth := if creds.envAuth then ["--s3-env-auth=true"]
                else ["--s3-access-key-id=$(S3_ACCESS_KEY_ID)", "--s3-secret-access-key=$(S3_SECRET_ACCESS_KEY)"];
    var provider := "--s3-provider=" + creds.provider;
    (if isBackup then ["sync", "/data/", remote, provider, "--s3-endpoint=$(S3_ENDPOINT)"]
     else ["sync", remote, "/data/", provider, "--s3-endpoint=$(S3_ENDPOINT)"])
    + auth
    + ["--skip-links", "--transfers=8", "--checkers=16", "-v"]
    + (if creds.region != "" then ["--s3-region=$(S3_REGION)"] else [])
  }

  function BackupJob(creds: Credentials, remotePath: string): Job {
    Job(RcloneArgs(creds, remotePath, true), [])
  }

  /** Strip the bucket prefix from the argument at `index`, as lastPreUpdateBackupPath does. */
  function StripRemote(args: seq<string>, index: nat, creds: Credentials): string {
    if index < |args| && |args[index]| > |RemotePrefix(creds)|
    then args[index][|RemotePrefix(creds)|..]
    else ""
  }

  /** lastPreUpdateBackupPath as written: the remote path is taken from argument 1. */
  function LastBackupPath(args: seq<string>, creds: Credentials): string {
    if |args| >= 2 then StripRemote(args, 1, creds) else ""
  }

  /** Which arguments a Job has: direction, provider, endpoint, and the authentication and region that the
      credentials ask for, each in its place and nothing else before the fixed flags. */
  lemma ArgumentsOfJob(creds: Credentials, path: string, isBackup: bool)
    ensures var args := RcloneArgs(creds, path, isBackup);
            var auth := if creds.envAuth then 1 else 2;
            && args[0] == "sync" && args[if isBackup then 1 else 2] == "/data/"
            && args[if isBackup then 2 else 1] == ":s3:" + creds.bucket + "/" + path
            && args[3] == "--s3-provider=" + creds.provider && args[4] == "--s3-endpoint=$(S3_ENDPOINT)"
            && (if creds.envAuth then args[5] == "--s3-env-auth=true"
                else args[5] == "--s3-access-key-id=$(S3_ACCESS_KEY_ID)" && args[6] == "--s3-secret-access-key=$(S3_SECRET_ACCESS_KEY)")
            && args[5 + auth..9 + auth] == ["--skip-links", "--transfers=8", "--checkers=16", "-v"]
            && (if creds.region == "" then |args| == 9 + auth else |args| == 10 + auth && args[9 + auth] == "--s3-region=$(S3_REGION)")
  {
  }

  /** Reading the remote argument where a backup Job has it (2) or a restore Job has it (1)
      returns the original path, for every bucket and every path. */
  lemma RemotePathRoundTrip(creds: Credentials, path: string)
    ensures StripRemote(RcloneArgs(creds, path, true), 2, creds) == path
    ensures StripRemote(RcloneArgs(creds, path, false), 1, creds) == path
  {
    var prefix := RemotePrefix(creds);
    assert |prefix + path| == |prefix| + |path|;
    assert (prefix + path)[|prefix|..] == path;
    assert RcloneArgs(creds, path, true)[2] == prefix + path;
    assert RcloneArgs(creds, path, false)[1] == prefix + path;
  }

  /** The index the code uses finds the mount point instead, so the path it reports for a backup
      Job is lost unless the bucket name is empty, which credential parsing never lets through. */
  lemma RecordedPathIsEmpty(creds: Credentials, path: string)
    ensures LastBackupPath(RcloneArgs(creds, path, true), creds) == "" <==> creds.bucket != ""
    ensures LastBackupPath(RcloneArgs(creds, path, true), creds) == path <==> path == (if creds.bucket == "" then "/" else "")
  {
    var args := RcloneArgs(creds, path, true);
    assert args[1] == "/data/";
    assert |RemotePrefix(creds)| == 5 + |creds.bucket|;
    if creds.bucket == "" {
      assert args[1][5..] == "/";
    }
  }
}
