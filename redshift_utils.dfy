/** The string building of get_s3_and_iam_details in
    src/utilities/redshift_utils.py: the S3 URI of the day's export file and
    the ARN of the IAM role Redshift assumes to read it. The configuration
    values it reads become parameters. */
module RedshiftUtils {
  import opened Wrappers
  import Dates

  /** The three configuration values the function reads. */
  datatype Config = Config(accountId: string, iamRole: string, bucketName: string)

  const S3Scheme := "s3://"
  const ArnPrefix := "arn:aws:iam::"
  const RoleInfix := ":role/"

  /** get_s3_and_iam_details(date): the S3 URI, then the role ARN. */
  function GetS3AndIamDetails(cfg: Config, date: string): (r: (string, string))
    ensures S3Scheme <= r.0 && ArnPrefix <= r.1
  {
    var key := "strava_data/" + date + "_export_file.csv";
    var s3FilePath := S3Scheme + cfg.bucketName + "/" + key;
    var roleString := ArnPrefix + cfg.accountId + RoleInfix + cfg.iamRole;
    (s3FilePath, roleString)
  }

  /** The default `date` argument. Python evaluates it once, when the module
      defines the function, so it is the day the module was loaded on and
      not the day of the call. */
  function DefaultDate(loadedOn: Dates.Date): (date: string)
    ensures '/' !in date
  {
    Dates.FormatYmd(loadedOn)
  }

  /** The index of the first occurrence of `c` in `s`. */
  function FirstIndex(s: string, c: char): (r: Option<nat>)
    ensures r.None? <==> c !in s
    ensures r.Some? ==> r.value < |s| && s[r.value] == c && c !in s[..r.value]
  {
    if |s| == 0 then None
    else if s[0] == c then Some(0)
    else match FirstIndex(s[1..], c)
      case None => None
      case Some(k) =>
        assert s[..k + 1] == [s[0]] + s[1..][..k];
        Some(k + 1)
  }

  lemma FirstIndexAfter(prefix: string, c: char, rest: string)
    requires c !in prefix
    ensures FirstIndex(prefix + [c] + rest, c) == Some(|prefix|)
  {
    var s := prefix + [c] + rest;
    assert s[|prefix|] == c;
    assert s[..|prefix|] == prefix;
  }

  /** The (bucket, key) an "s3://bucket/key" URI names, the way S3 reads it:
      the bucket ends at the first '/'. */
  function ParseS3Uri(uri: string): Option<(string, string)> {
    if !(S3Scheme <= uri) then None
    else
      var rest := uri[|S3Scheme|..];
      match FirstIndex(rest, '/')
      case None => None
      case Some(k) => Some((rest[..k], rest[k + 1..]))
  }

  /** The (account, role name) a role ARN names: the account ends at the
      first ':' and must be followed by ":role/". */
  function ParseRoleArn(arn: string): Option<(string, string)> {
    if !(ArnPrefix <= arn) then None
    else
      var rest := arn[|ArnPrefix|..];
      match FirstIndex(rest, ':')
      case None => None
      case Some(k) =>
        if RoleInfix <= rest[k..] then Some((rest[..k], rest[k + |RoleInfix|..])) else None
  }

  lemma ParseS3UriOf(bucket: string, key: string)
    requires '/' !in bucket
    ensures ParseS3Uri(S3Scheme + bucket + "/" + key) == Some((bucket, key))
  {
    var uri := S3Scheme + bucket + "/" + key;
    var rest := bucket + "/" + key;
    assert uri == S3Scheme + rest;
    assert uri[|S3Scheme|..] == rest;
    FirstIndexAfter(bucket, '/', key);
    assert rest[..|bucket|] == bucket;
    assert rest[|bucket| + 1..] == key;
  }

  lemma ParseRoleArnOf(account: string, role: string)
    requires ':' !in account
    ensures ParseRoleArn(ArnPrefix + account + RoleInfix + role) == Some((account, role))
  {
    var tail := "role/" + role;
    assert RoleInfix + role == [':'] + tail;
    var rest := account + [':'] + tail;
    assert rest == account + (RoleInfix + role);
    var arn := ArnPrefix + account + RoleInfix + role;
    assert arn == ArnPrefix + rest;
    assert arn[|ArnPrefix|..] == rest;
    FirstIndexAfter(account, ':', tail);
    var k := |account|;
    assert rest[..k] == account;
    assert rest[k..] == RoleInfix + role;
    assert RoleInfix <= rest[k..];
    assert rest[k + |RoleInfix|..] == role;
  }

  /** The URI names, in the configured bucket, the object
      "strava_data/<date>_export_file.csv" (bucket names hold no '/'). */
  lemma {:induction false} S3UriNamesExportObject(cfg: Config, date: string)
    requires '/' !in cfg.bucketName
    ensures ParseS3Uri(GetS3AndIamDetails(cfg, date).0)
            == Some((cfg.bucketName, "strava_data/" + date + "_export_file.csv"))
  {
    ParseS3UriOf(cfg.bucketName, "strava_data/" + date + "_export_file.csv");
  }

  /** The ARN names the configured account and role (account IDs hold no ':'). */
  lemma {:induction false} RoleArnNamesRole(cfg: Config, date: string)
    requires ':' !in cfg.accountId
    ensures ParseRoleArn(GetS3AndIamDetails(cfg, date).1) == Some((cfg.accountId, cfg.iamRole))
  {
    ParseRoleArnOf(cfg.accountId, cfg.iamRole);
  }

  /** For a fixed bucket, different date strings give different URIs. */
  lemma S3UriInjective(cfg: Config, date1: string, date2: string)
    requires GetS3AndIamDetails(cfg, date1).0 == GetS3AndIamDetails(cfg, date2).0
    ensures date1 == date2
  {
    var n := |S3Scheme + cfg.bucketName + "/strava_data/"|;
    var uri1, uri2 := GetS3AndIamDetails(cfg, date1).0, GetS3AndIamDetails(cfg, date2).0;
    assert |date1| == |date2|;
    assert uri1[n..n + |date1|] == date1;
    assert uri2[n..n + |date2|] == date2;
  }
}
