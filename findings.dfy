/** Entry order of lm3533_lcd_backlight_set_level. The function reads the
    driver data through the global client (line 183) before it tests that
    client for NULL (line 185), so the test cannot protect the read. */
module Findings {

  datatype Outcome = NullDereference | NotYetEnabled | Continues

  /** As written: the read through the client comes first. */
  function SetLevelEntryAsWritten(clientPresent: bool): (o: Outcome)
    ensures o == NullDereference <==> !clientPresent
    ensures clientPresent ==> o == Continues
  {
    var driverDataRead := clientPresent;  // i2c_get_clientdata(client) only succeeds for a real client
    if !driverDataRead then NullDereference
    else if !clientPresent then NotYetEnabled
    else Continues
  }

  /** Without a client the as-written entry faults, and its "not yet enabled" return is never taken. */
  lemma AsWrittenNullCheckIsDead()
    ensures SetLevelEntryAsWritten(false) == NullDereference
    ensures forall present: bool :: SetLevelEntryAsWritten(present) != NotYetEnabled
  {
  }

  /** Corrected: test the client before using it, as Driver.Lm3533.SetLevel does. */
  function SetLevelEntry(clientPresent: bool): (o: Outcome)
    ensures o != NullDereference
    ensures o == NotYetEnabled <==> !clientPresent
  {
    if !clientPresent then NotYetEnabled else Continues
  }
}
