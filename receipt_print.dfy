/**
 * The receipt print handler: print on an already connected thermal printer, otherwise connect
 * and print, otherwise fall back to the browser's print dialog. One catch-all around the thermal
 * steps sends any exception straight to the browser fallback.
 */
module ReceiptPrint {

  /** What one printer call does: return a boolean or throw. */
  datatype Reply = Returns(value: bool) | Throws

  /**
   * The printer's behaviour for one print request: the answers to `isConnected()`, the print on
   * an existing connection, `connect()` and the print after connecting. A call that is not made
   * leaves its answer unused.
   */
  datatype Printer = Printer(isConnected: Reply, firstPrint: Reply, connect: Reply, secondPrint: Reply)

  /** The calls the handler makes, in order. */
  datatype Action = QueryConnection | ThermalPrint | Connect | BrowserPrint

  /** The receipt reached the thermal printer on an existing connection. */
  predicate PrintsDirectly(p: Printer) {
    p.isConnected == Returns(true) && p.firstPrint == Returns(true)
  }

  /** Some step before `connect()` threw. */
  predicate ThrowsBeforeConnect(p: Printer) {
    p.isConnected.Throws? || (p.isConnected == Returns(true) && p.firstPrint.Throws?)
  }

  /** The receipt reached the thermal printer after connecting. */
  predicate PrintsAfterConnect(p: Printer) {
    !PrintsDirectly(p) && !ThrowsBeforeConnect(p) && p.connect == Returns(true) && p.secondPrint == Returns(true)
  }

  /** The calls made before `connect()` when the handler gets that far. */
  function ConnectPrefix(p: Printer): seq<Action> {
    if p.isConnected == Returns(true) then [QueryConnection, ThermalPrint] else [QueryConnection]
  }

  /** `a` occurs in `trace` once, as its last call. */
  predicate OnceAtEnd(trace: seq<Action>, a: Action) {
    |trace| > 0 && trace[|trace| - 1] == a && a !in trace[..|trace| - 1]
  }

  /** `handleThermalPrint`. */
  method HandleThermalPrint(p: Printer) returns (trace: seq<Action>)
    ensures |trace| > 0 && trace[0] == QueryConnection
    // Connected and printed: one print, no connect, no browser print.
    ensures PrintsDirectly(p) ==> trace == [QueryConnection, ThermalPrint]
    // Not connected, or the first print returned false: a connect attempt follows.
    ensures !PrintsDirectly(p) && !ThrowsBeforeConnect(p) ==>
      |trace| > |ConnectPrefix(p)| && trace[..|ConnectPrefix(p)| + 1] == ConnectPrefix(p) + [Connect]
    ensures Connect in trace <==> !PrintsDirectly(p) && !ThrowsBeforeConnect(p)
    // After the connect attempt: one print if it connected, then the browser print unless that print succeeded.
    ensures !PrintsDirectly(p) && !ThrowsBeforeConnect(p) ==>
      trace == ConnectPrefix(p) + [Connect] + (if p.connect == Returns(true) then [ThermalPrint] else [])
        + (if PrintsAfterConnect(p) then [] else [BrowserPrint])
    // A throw before connecting goes straight to the browser print.
    ensures ThrowsBeforeConnect(p) ==> trace == ConnectPrefix(p) + [BrowserPrint]
    // The browser print happens exactly when no thermal print succeeded, and then once, last.
    ensures BrowserPrint in trace <==> !PrintsDirectly(p) && !PrintsAfterConnect(p)
    ensures BrowserPrint in trace ==> OnceAtEnd(trace, BrowserPrint)
    ensures !(BrowserPrint in trace) ==> trace[|trace| - 1] == ThermalPrint
    // At most one connect attempt, and nothing thermal after a throw.
    ensures Connect in trace ==> |trace| > |ConnectPrefix(p)| && OnceAtEnd(trace[..|ConnectPrefix(p)| + 1], Connect)
    ensures Connect in trace ==> Connect !in trace[|ConnectPrefix(p)| + 1..]
    ensures |trace| <= |ConnectPrefix(p)| + 3
  {
    trace := [QueryConnection];
    var threw := false;
    if p.isConnected.Throws? {
      threw := true;
    } else if p.isConnected.value {
      trace := trace + [ThermalPrint];
      if p.firstPrint.Throws? {
        threw := true;
      } else if p.firstPrint.value {
        return;
      }
    }
    if !threw {
      trace := trace + [Connect];
      if p.connect.Throws? {
        threw := true;
      } else if p.connect.value {
        trace := trace + [ThermalPrint];
        if p.secondPrint.Throws? {
          threw := true;
        } else if p.secondPrint.value {
          return;
        }
      }
    }
    // Either the thermal attempts returned false (the last statement of the `try`) or one of
    // them threw (the `catch`): both end in the browser print.
    trace := trace + [BrowserPrint];
  }
}
