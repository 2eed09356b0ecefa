TestResult.DisplayName,TestResult.Outcome,TestResult.Duration,TestResult.ResourceCount,RandomSeed
RouteExtension.RouteExtension.ProcessHandlerTypes (correctness),Passed,00:00:00.6492810,1544590,3
RouteExtension.RouteExtension.ProcessHandlerTypes (well-formedness),Passed,00:00:00.2531627,110723,3
