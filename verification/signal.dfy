/** `get_iw`: of what the wireless inspector reports, only the signal strength
    is forwarded. The inspector's dictionary is a parameter. */
module Signal {
  import opened Json

  const SigDbm: string := "sig_dbm"

  /** The variables taken from the inspector's dictionary `iw`. */
  function SignalVars(iw: map<string, Json>): (iwvars: map<string, Json>)
    ensures iwvars.Keys <= {SigDbm}
    ensures SigDbm in iwvars <==> SigDbm in iw
    ensures SigDbm in iwvars ==> iwvars[SigDbm] == iw[SigDbm]
  {
    if SigDbm in iw then map[SigDbm := iw[SigDbm]] else map[]
  }
}
