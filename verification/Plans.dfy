/** Subscription plans and their monthly quotas. */
module Plans {
  datatype Plan = Free | Pro | Business

  function QuotaOf(plan: Plan): nat {
    match plan
    case Free => 1_000
    case Pro => 50_000
    case Business => 500_000
  }
}
