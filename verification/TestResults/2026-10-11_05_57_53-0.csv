TestResult.DisplayName,TestResult.Outcome,TestResult.Duration,TestResult.ResourceCount,RandomSeed
RouteExtension.RouteExtension.ProcessHandlerTypes (correctness),Failed,00:00:00.6151772,2107595,5
RouteExtension.RouteExtension.ProcessHandlerTypes (well-formedness),Passed,00:00:00.2303900,110709,5
