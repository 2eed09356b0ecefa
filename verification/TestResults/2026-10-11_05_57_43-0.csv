TestResult.DisplayName,TestResult.Outcome,TestResult.Duration,TestResult.ResourceCount,RandomSeed
RouteExtension.RouteExtension.ProcessHandlerTypes (correctness),Failed,00:00:00.7033978,2107604,2
RouteExtension.RouteExtension.ProcessHandlerTypes (well-formedness),Passed,00:00:00.2312123,110734,2
