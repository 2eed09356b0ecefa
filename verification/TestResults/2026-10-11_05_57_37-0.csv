TestResult.DisplayName,TestResult.Outcome,TestResult.Duration,TestResult.ResourceCount,RandomSeed
RouteExtension.RouteExtension.ProcessHandlerTypes (correctness),Passed,00:00:00.5498894,1890469,0
RouteExtension.RouteExtension.ProcessHandlerTypes (well-formedness),Passed,00:00:00.2120675,110728,0
