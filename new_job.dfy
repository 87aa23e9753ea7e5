/**
 * The new-job form: its defaults, the editable list of header rows, the
 * header dictionary built from those rows, and the payload sent to create
 * the job, whose fields depend on the job type.
 */
module NewJob {
  import opened Common

  const HttpMethods: seq<string> := ["GET", "POST", "PUT", "PATCH", "DELETE"]
  /** The methods for which the body editor is shown. */
  const BodyMethods: seq<string> := ["POST", "PUT", "PATCH"]

  datatype JobType = Http | Script

  datatype HeaderRow = HeaderRow(key: string, value: string)

  datatype HeaderField = KeyField | ValueField

  datatype JobForm = JobForm(
    name: string, schedule: string, timezone: string,
    url: string, httpMethod: string, httpBody: string, script: string,
    retryCount: int, retryDelay: int, timeout: int, isActive: bool)

  /** The request body of a create call; absent fields are not sent. */
  datatype CreateJobData = CreateJobData(
    name: string, schedule: string, timezone: string, jobType: JobType,
    url: Option<string>, httpMethod: Option<string>, httpHeaders: Option<map<string, string>>,
    httpBody: Option<string>, script: Option<string>,
    retryCount: int, retryDelay: int, timeout: int, isActive: bool)

  /** An HTTP job, run in UTC with GET, three retries a minute apart, a
      30-second timeout, active; every text field empty. */
  function DefaultForm(): (f: JobForm)
    ensures f.timezone == "UTC" && f.httpMethod == "GET" && f.httpMethod in HttpMethods
    ensures f.retryCount == 3 && f.retryDelay == 60 && f.timeout == 30 && f.isActive
    ensures f.name == "" && f.schedule == "" && f.url == "" && f.httpBody == "" && f.script == ""
  {
    JobForm("", "", "UTC", "", "GET", "", "", 3, 60, 30, true)
  }

  const DefaultJobType := Http

  // ---------------------------------------------------------------------------
  // Header rows

  function InitialRows(): (rows: seq<HeaderRow>)
    ensures rows == [HeaderRow("", "")]
  {
    [HeaderRow("", "")]
  }

  function AddHeader(rows: seq<HeaderRow>): (r: seq<HeaderRow>)
    ensures |r| == |rows| + 1 && r[..|rows|] == rows && r[|rows|] == HeaderRow("", "")
  {
    rows + [HeaderRow("", "")]
  }

  /** `headers.filter((_, i) => i !== index)`: an index outside the list removes nothing. */
  function RemoveHeader(rows: seq<HeaderRow>, index: int): (r: seq<HeaderRow>)
    ensures 0 <= index < |rows| ==> r == rows[..index] + rows[index + 1..]
    ensures !(0 <= index < |rows|) ==> r == rows
  {
    if 0 <= index < |rows| then rows[..index] + rows[index + 1..] else rows
  }

  /** The remove button is shown only with more than one row, so the list
      never becomes empty. */
  lemma RemoveKeepsARow(rows: seq<HeaderRow>, index: int)
    requires |rows| > 1
    ensures |RemoveHeader(rows, index)| >= 1
  {
  }

  /** `newHeaders[index][field] = value`: one field of one row. */
  function SetHeaderField(rows: seq<HeaderRow>, index: nat, field: HeaderField, value: string): (r: seq<HeaderRow>)
    requires index < |rows|
    ensures |r| == |rows|
    ensures forall i :: 0 <= i < |rows| && i != index ==> r[i] == rows[i]
    ensures field == KeyField ==> r[index] == rows[index].(key := value)
    ensures field == ValueField ==> r[index] == rows[index].(value := value)
  {
    rows[index := match field
      case KeyField => rows[index].(key := value)
      case ValueField => rows[index].(value := value)]
  }

  // ---------------------------------------------------------------------------
  // The header dictionary

  /** A trimmed key the dictionary keeps: non-empty, and not "__proto__",
      which a plain object ignores when assigned a string. */
  predicate StoredKey(k: string) {
    k != "" && k != "__proto__"
  }

  /** Each row as the assignment the loop makes: trimmed key, untrimmed value. */
  function Assignments(rows: seq<HeaderRow>): seq<(string, string)> {
    seq(|rows|, i requires 0 <= i < |rows| => (Trim(rows[i].key), rows[i].value))
  }

  /** Performs the assignments in order into an empty object, skipping
      keys the object does not store. */
  function Assign(ps: seq<(string, string)>): map<string, string>
    decreases |ps|
  {
    if ps == [] then map[]
    else
      var m := Assign(ps[..|ps| - 1]);
      var p := ps[|ps| - 1];
      if StoredKey(p.0) then m[p.0 := p.1] else m
  }

  /** `httpHeaders[h.key.trim()] = h.value` for each row with a non-blank key, in order. */
  function HeaderMap(rows: seq<HeaderRow>): map<string, string> {
    Assign(Assignments(rows))
  }

  /** Every assignment of a storable key leaves that key in the object. */
  lemma {:induction false} AssignHasKeys(ps: seq<(string, string)>, i: nat)
    requires i < |ps| && StoredKey(ps[i].0)
    ensures ps[i].0 in Assign(ps)
    decreases |ps|
  {
    if i < |ps| - 1 {
      var init := ps[..|ps| - 1];
      assert init[i] == ps[i];
      AssignHasKeys(init, i);
    }
  }

  /** Every key of the object was assigned and is storable. */
  lemma {:induction false} AssignKeysFrom(ps: seq<(string, string)>, k: string)
    requires k in Assign(ps)
    ensures StoredKey(k) && exists i :: 0 <= i < |ps| && ps[i].0 == k
    decreases |ps|
  {
    var init := ps[..|ps| - 1];
    if k in Assign(init) {
      AssignKeysFrom(init, k);
      var i :| 0 <= i < |init| && init[i].0 == k;
      assert ps[i] == init[i];
    } else {
      assert ps[|ps| - 1].0 == k;
    }
  }

  /** A key holds the value of its last assignment. */
  lemma {:induction false} AssignLastWins(ps: seq<(string, string)>, i: nat)
    requires i < |ps| && StoredKey(ps[i].0)
    requires forall j :: i < j < |ps| ==> ps[j].0 != ps[i].0
    ensures ps[i].0 in Assign(ps) && Assign(ps)[ps[i].0] == ps[i].1
    decreases |ps|
  {
    if i < |ps| - 1 {
      var init := ps[..|ps| - 1];
      assert init[i] == ps[i];
      assert ps[|ps| - 1].0 != ps[i].0;
      AssignLastWins(init, i);
    }
  }

  /** The dictionary has exactly the storable trimmed keys of the rows. */
  lemma HeaderMapKeys(rows: seq<HeaderRow>)
    ensures forall k :: k in HeaderMap(rows) <==>
      StoredKey(k) && exists i :: 0 <= i < |rows| && Trim(rows[i].key) == k
  {
    var ps := Assignments(rows);
    forall k | StoredKey(k) && (exists i :: 0 <= i < |rows| && Trim(rows[i].key) == k)
      ensures k in HeaderMap(rows)
    {
      var i :| 0 <= i < |rows| && Trim(rows[i].key) == k;
      assert ps[i].0 == k;
      AssignHasKeys(ps, i);
    }
    forall k | k in HeaderMap(rows)
      ensures StoredKey(k) && exists i :: 0 <= i < |rows| && Trim(rows[i].key) == k
    {
      AssignKeysFrom(ps, k);
      var i :| 0 <= i < |ps| && ps[i].0 == k;
      assert Trim(rows[i].key) == k;
    }
  }

  /** A key's value is the untrimmed value of the last row carrying it. */
  lemma HeaderMapLastWins(rows: seq<HeaderRow>, i: nat)
    requires i < |rows| && StoredKey(Trim(rows[i].key))
    requires forall j :: i < j < |rows| ==> Trim(rows[j].key) != Trim(rows[i].key)
    ensures Trim(rows[i].key) in HeaderMap(rows)
    ensures HeaderMap(rows)[Trim(rows[i].key)] == rows[i].value
  {
    var ps := Assignments(rows);
    assert ps[i] == (Trim(rows[i].key), rows[i].value);
    forall j | i < j < |ps| ensures ps[j].0 != ps[i].0 {
      assert ps[j].0 == Trim(rows[j].key);
    }
    AssignLastWins(ps, i);
  }

  /** `headers.forEach(...)` into an empty object. */
  method BuildHeaders(rows: seq<HeaderRow>) returns (httpHeaders: map<string, string>)
    ensures httpHeaders == HeaderMap(rows)
  {
    ghost var ps := Assignments(rows);
    httpHeaders := map[];
    for n := 0 to |rows|
      invariant httpHeaders == Assign(ps[..n])
    {
      assert ps[..n + 1][..n] == ps[..n];
      var h := rows[n];
      assert ps[n] == (Trim(h.key), h.value);
      var key := Trim(h.key);
      if key != "" {
        if key != "__proto__" {
          httpHeaders := httpHeaders[key := h.value];
        }
      }
    }
    assert ps[..|rows|] == ps;
  }

  // ---------------------------------------------------------------------------
  // The payload

  /** The create payload: the HTTP fields only for HTTP jobs, the script
      only for script jobs, headers only when there is one, a body only
      when it is not empty; retries, timeout and activity always. */
  function BuildPayload(f: JobForm, jobType: JobType, headers: map<string, string>): (d: CreateJobData)
    ensures d.name == f.name && d.schedule == f.schedule && d.timezone == f.timezone && d.jobType == jobType
    ensures d.url.Some? <==> jobType == Http
    ensures d.httpMethod.Some? <==> jobType == Http
    ensures d.script.Some? <==> jobType == Script
    ensures d.httpHeaders.Some? <==> jobType == Http && |headers| > 0
    ensures d.httpBody.Some? <==> jobType == Http && f.httpBody != ""
    ensures d.url.Some? ==> d.url.value == f.url
    ensures d.httpMethod.Some? ==> d.httpMethod.value == f.httpMethod
    ensures d.script.Some? ==> d.script.value == f.script
    ensures d.httpHeaders.Some? ==> d.httpHeaders.value == headers
    ensures d.httpBody.Some? ==> d.httpBody.value == f.httpBody
    ensures d.retryCount == f.retryCount && d.retryDelay == f.retryDelay
    ensures d.timeout == f.timeout && d.isActive == f.isActive
  {
    var http := jobType == Http;
    CreateJobData(
      f.name, f.schedule, f.timezone, jobType,
      if http then Some(f.url) else None,
      if http then Some(f.httpMethod) else None,
      if http && |headers| > 0 then Some(headers) else None,
      if http && f.httpBody != "" then Some(f.httpBody) else None,
      if jobType == Script then Some(f.script) else None,
      f.retryCount, f.retryDelay, f.timeout, f.isActive)
  }

  /** The body editor is shown only for POST, PUT and PATCH, but a body
      typed there is still sent after switching to GET. */
  lemma BodySentForAnyMethod(f: JobForm)
    requires f.httpBody != "" && f.httpMethod !in BodyMethods
    ensures BuildPayload(f, Http, map[]).httpBody == Some(f.httpBody)
  {
  }

  /** `handleSubmit` up to the create call. */
  method PrepareSubmission(f: JobForm, jobType: JobType, rows: seq<HeaderRow>) returns (payload: CreateJobData)
    ensures payload == BuildPayload(f, jobType, HeaderMap(rows))
  {
    var httpHeaders := BuildHeaders(rows);
    payload := BuildPayload(f, jobType, httpHeaders);
  }
}
