TestResult.DisplayName,TestResult.Outcome,TestResult.Duration,TestResult.ResourceCount,RandomSeed
RouteExtension.RouteExtension.ProcessHandlerTypes (correctness),Failed,00:00:00.6968131,2107595,1
RouteExtension.RouteExtension.ProcessHandlerTypes (well-formedness),Passed,00:00:00.2006583,110725,1
