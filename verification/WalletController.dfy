/** The Wallet controller: it validates the address a Shop declared and publishes
    the verdict on the Wallet's status. */
module WalletController {
  import opened Address

  datatype WalletStatus = WalletStatus(address: string, ready: bool, reason: string)

  /** What the controller publishes for a declared address. */
  function Verdict(declared: string): WalletStatus
  {
    if declared == "" then WalletStatus("", false, "AddressMissing")
    else if !IsValidAddress(declared) then WalletStatus("", false, "InvalidAddress")
    else WalletStatus(declared, true, "AddressAccepted")
  }

  function Published(declared: string): string
  {
    Verdict(declared).address
  }

  /** A published address is the declared one and valid, or there is none; Ready says
      which, and publishing is idempotent. */
  lemma PublishesValidOnly(declared: string)
    ensures Published(declared) == if IsValidAddress(declared) then declared else ""
    ensures Verdict(declared).ready <==> IsValidAddress(declared)
    ensures Published(Published(declared)) == Published(declared)
    ensures Verdict(declared).reason ==
              if declared == "" then "AddressMissing" else if IsValidAddress(declared)
                  then "AddressAccepted" else "InvalidAddress"
  {
  }

  /** The in-memory copy of a Wallet. */
  class Wallet {
    const specAddress: string
    var statusAddress: string
    var ready: bool
    var reason: string

    constructor (specAddress: string, status: WalletStatus)
      ensures this.specAddress == specAddress && Status() == status
    {
      this.specAddress, statusAddress, ready, reason := specAddress, status.address, status.ready, status.reason;
    }

    function Status(): WalletStatus
      reads this
    {
      WalletStatus(statusAddress, ready, reason)
    }
  }

  /** A Wallet as the API server stores it. */
  datatype WalletRecord = WalletRecord(spec: string, status: WalletStatus)

  datatype Read = Found | Missing | ReadError

  /** What becomes of the status write: it works, it is refused without effect (a conflict,
      say), or it takes effect and its reply is lost. */
  datatype Fate = Worked | Refused | LostReply

  class WalletReconciler {
    var stored: WalletRecord

    constructor (stored: WalletRecord)
      ensures this.stored == stored
    {
      this.stored := stored;
    }

    /** Overwrites the copy's status and writes it back. */
    method SetStatus(w: Wallet, address: string, ready: bool, reason: string, fate: Fate) returns (ok: bool)
      modifies this, w
      ensures w.Status() == WalletStatus(address, ready, reason)
      ensures stored == (if fate == Refused then old(stored) else old(stored).(status := w.Status()))
      ensures ok == (fate == Worked)
    {
      w.statusAddress, w.ready, w.reason := address, ready, reason;
      if fate != Refused {
        stored := stored.(status := w.Status());
      }
      ok := fate == Worked;
    }

    /** A missing Wallet needs nothing, a failed read or write is an error, and a write that
        takes effect stores the verdict on the spec, whatever was stored before. */
    method Reconcile(read: Read, fate: Fate) returns (ok: bool)
      modifies this
      ensures ok == (read == Missing || (read == Found && fate == Worked))
      ensures stored.spec == old(stored).spec
      ensures stored.status == if read == Found && fate != Refused then Verdict(stored.spec) else old(stored).status
      ensures ok && read == Found ==> stored.status.address == if IsValidAddress(stored.spec) then stored.spec else ""
    {
      if read == Missing { return true; }
      if read == ReadError { return false; }
      var w := new Wallet(stored.spec, stored.status);
      if w.specAddress == "" {
        ok := SetStatus(w, "", false, "AddressMissing", fate);
      } else if !IsValidAddress(w.specAddress) {
        ok := SetStatus(w, "", false, "InvalidAddress", fate);
      } else {
        ok := SetStatus(w, w.specAddress, true, "AddressAccepted", fate);
      }
    }
  }
}
