/** The supplier's status checker (`malolieferant.MaLoStatusChecker`): a
    transfer is complete once its destination blob is listed in the
    destination container; a transfer still unanswered more than five
    minutes after its creation is terminated. The listing and the current
    time in milliseconds are inputs. */
module MaLoStatusChecker {
  import opened Common
  import opened Records

  /** Five minutes in milliseconds. */
  const TimeoutMillis: int := 300000

  /** The test of line 33: strictly more than five minutes have passed. */
  predicate TimedOut(createdAt: int, now: int) {
    createdAt + TimeoutMillis < now
  }

  /** Exactly five minutes is not yet a timeout; one millisecond more is. */
  lemma TimeoutIsStrict(createdAt: int)
    ensures !TimedOut(createdAt, createdAt + 300000)
    ensures TimedOut(createdAt, createdAt + 300001)
  {
  }

  /** `isComplete` (lines 24-37). A listed name equal to the destination's
      `blobname` ignoring case completes the transfer at once and leaves the
      process alone; otherwise the result is false, and the process is
      terminated with "no response from vnb" if it has timed out. */
  method IsComplete(process: TransferProcess, destination: DataAddress, listing: seq<string>, now: int)
    returns (complete: bool)
    modifies process
    ensures complete <==>
      GetProperty(destination, "blobname").Some? && ListedIgnoringCase(listing, GetProperty(destination, "blobname").value)
    ensures complete || !TimedOut(process.createdAt, now) ==>
      process.state == old(process.state) && process.errorDetail == old(process.errorDetail)
    ensures !complete && TimedOut(process.createdAt, now) ==>
      process.state == Terminated && process.errorDetail == Some("no response from vnb")
  {
    var blobname := GetProperty(destination, "blobname");
    var found := false;
    if blobname.Some? {
      found := ScanIgnoringCase(listing, blobname.value);
    }
    if found {
      return true;
    }
    if TimedOut(process.createdAt, now) {
      process.TransitionTerminated("no response from vnb");
    }
    return false;
  }
}

/** The new provider's status checker (`makochain.NewProviderStatusChecker`).
    It has the structure of the supplier's checker but compares the listed
    names with the destination's `blobname` by object identity (`==`), so a
    name read from a fresh listing never matches. A Java string is modelled
    as an object identity together with its text. */
module NewProviderStatusChecker {
  import opened Common
  import opened Records
  import opened MaLoStatusChecker

  /** A `java.lang.String` object: which object it is, and its characters. */
  datatype JavaString = JavaString(ref: nat, text: string)

  /** Some listed name is the very object `name` (Java `==`). */
  predicate ListedSameObject(listing: seq<JavaString>, name: JavaString) {
    exists i :: 0 <= i < |listing| && listing[i].ref == name.ref
  }

  /** Some listed name has the text of `name` (Java `equals`). */
  predicate ListedSameText(listing: seq<JavaString>, name: JavaString) {
    exists i :: 0 <= i < |listing| && listing[i].text == name.text
  }

  /** The termination step shared by both loops below (lines 29-32). */
  method Unanswered(process: TransferProcess, now: int)
    modifies process
    ensures TimedOut(process.createdAt, now) ==>
      process.state == Terminated && process.errorDetail == Some("no response from vnb")
    ensures !TimedOut(process.createdAt, now) ==>
      process.state == old(process.state) && process.errorDetail == old(process.errorDetail)
  {
    if TimedOut(process.createdAt, now) {
      process.TransitionTerminated("no response from vnb");
    }
  }

  /** The listed names are all objects other than `name`, as the names a
      blob listing returns are: new strings built from the service's
      response. */
  predicate FreshNames(listing: seq<JavaString>, name: JavaString) {
    forall i :: 0 <= i < |listing| ==> listing[i].ref != name.ref
  }

  /** `isComplete` as written (lines 21-33): identity comparison. A null
      `blobname` matches no listed name. Against a freshly listed
      container it never reports completion, and it terminates the process
      exactly when the timeout has passed. */
  method IsComplete(process: TransferProcess, blobname: Option<JavaString>, listing: seq<JavaString>, now: int)
    returns (complete: bool)
    modifies process
    ensures complete <==> blobname.Some? && ListedSameObject(listing, blobname.value)
    ensures blobname.Some? && FreshNames(listing, blobname.value) ==>
      && !complete
      && (TimedOut(process.createdAt, now) ==>
            process.state == Terminated && process.errorDetail == Some("no response from vnb"))
      && (!TimedOut(process.createdAt, now) ==>
            process.state == old(process.state) && process.errorDetail == old(process.errorDetail))
    ensures complete || !TimedOut(process.createdAt, now) ==>
      process.state == old(process.state) && process.errorDetail == old(process.errorDetail)
    ensures !complete && TimedOut(process.createdAt, now) ==>
      process.state == Terminated && process.errorDetail == Some("no response from vnb")
  {
    if blobname.Some? {
      var i := 0;
      while i < |listing|
        invariant 0 <= i <= |listing|
        invariant forall j :: 0 <= j < i ==> listing[j].ref != blobname.value.ref
      {
        if listing[i].ref == blobname.value.ref {
          return true;
        }
        i := i + 1;
      }
    }
    Unanswered(process, now);
    return false;
  }

  /** `isComplete` with `equals` in place of `==`: the transfer is complete
      once a listed name has the destination's text. */
  method IsCompleteByText(process: TransferProcess, blobname: Option<JavaString>, listing: seq<JavaString>, now: int)
    returns (complete: bool)
    modifies process
    ensures complete <==> blobname.Some? && ListedSameText(listing, blobname.value)
    ensures complete || !TimedOut(process.createdAt, now) ==>
      process.state == old(process.state) && process.errorDetail == old(process.errorDetail)
    ensures !complete && TimedOut(process.createdAt, now) ==>
      process.state == Terminated && process.errorDetail == Some("no response from vnb")
  {
    if blobname.Some? {
      var i := 0;
      while i < |listing|
        invariant 0 <= i <= |listing|
        invariant forall j :: 0 <= j < i ==> listing[j].text != blobname.value.text
      {
        if listing[i].text == blobname.value.text {
          return true;
        }
        i := i + 1;
      }
    }
    Unanswered(process, now);
    return false;
  }

  /** The answer is listed under exactly the expected name, yet the
      identity test misses it while the text test finds it. */
  lemma IdentityMissesListedAnswer()
    ensures var name := JavaString(0, "MaLo_1_A_temp");
      var listing := [JavaString(1, "MaLo_1_A_temp")];
      ListedSameText(listing, name) && !ListedSameObject(listing, name)
  {
    var name := JavaString(0, "MaLo_1_A_temp");
    var listing := [JavaString(1, "MaLo_1_A_temp")];
    assert listing[0].text == name.text;
  }

  /** In a heap where one object has one text, whatever the identity test
      accepts the text test accepts too, so the correction only adds
      matches. */
  lemma TextMatchExtendsIdentityMatch(listing: seq<JavaString>, name: JavaString)
    requires forall i :: 0 <= i < |listing| && listing[i].ref == name.ref ==> listing[i].text == name.text
    requires ListedSameObject(listing, name)
    ensures ListedSameText(listing, name)
  {
    var i :| 0 <= i < |listing| && listing[i].ref == name.ref;
    assert listing[i].text == name.text;
  }
}
