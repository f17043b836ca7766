/** McpLifecycleManager: hands the registry to the scanner at construction
    time and runs the scan when the application context starts. A start
    while running does nothing, and a stop makes the next start scan again.
    The context's beans, which the scan reads, are given to start. */
module Lifecycle {
  import opened Wrappers
  import opened ToolRegistry
  import opened ToolScanner

  class LifecycleManager {
    const toolScanner: ToolScanner
    const toolRegistry: ToolRegistry
    var running: bool
    /** How many scans have been started, for stating that a start while
        running does not scan. */
    ghost var scans: nat

    constructor (toolScanner: ToolScanner, toolRegistry: ToolRegistry)
      ensures this.toolScanner == toolScanner && this.toolRegistry == toolRegistry
      ensures !running && scans == 0
    {
      this.toolScanner := toolScanner;
      this.toolRegistry := toolRegistry;
      running := false;
      scans := 0;
    }

    /** init(): the scanner gets the registry it registers into. */
    method Init()
      modifies toolScanner
      ensures toolScanner.toolRegistry == toolRegistry
    {
      toolScanner.SetToolRegistry(toolRegistry);
    }

    /** start(): scans and then marks the manager running, unless it is
        running already. A scan without a registry fails before scanning and
        leaves the manager stopped. */
    method Start(beans: seq<Bean>) returns (failure: Option<string>)
      requires toolScanner.toolRegistry != null ==> toolScanner.toolRegistry.Valid()
      modifies this, toolScanner.toolRegistry
      ensures old(running) ==>
        && running && failure == None && scans == old(scans)
        && (toolScanner.toolRegistry != null ==> toolScanner.toolRegistry.tools == old(toolScanner.toolRegistry.tools))
      ensures !old(running) ==>
        && scans == old(scans) + 1
        && (running <==> failure == None)
        && (toolScanner.toolRegistry == null ==> failure == Some("McpToolRegistry must be set before scanning"))
        && (toolScanner.toolRegistry != null ==>
              && failure == None
              && toolScanner.toolRegistry.Valid()
              && toolScanner.toolRegistry.tools == Registered(old(toolScanner.toolRegistry.tools), Registrations(beans)))
    {
      failure := None;
      if !running {
        scans := scans + 1;
        failure := toolScanner.ScanAndRegisterTools(beans);
        if failure.Some? {
          return;
        }
        running := true;
      }
    }

    /** stop(). */
    method Stop()
      modifies this
      ensures !running && scans == old(scans)
    {
      running := false;
    }

    /** isRunning(). */
    function IsRunning(): bool
      reads this
    {
      running
    }

    /** destroy(): the same as stop. */
    method Destroy()
      modifies this
      ensures !running && scans == old(scans)
    {
      Stop();
    }
  }
}
