/** The static interview-question catalogue and its two read-only lookups
    (lib/interview-questions.ts).  The lookups take the catalogue as an
    argument `bank`; the repository always passes `InterviewQuestionBank`,
    the constant below. */
module InterviewQuestions {
  import opened Wrappers
  import opened Seqs
  import opened SkillTypes

  /** A question catalogue: the question list filed under each role id. */
  type Bank = map<string, seq<Question>>

  /** `interviewQuestions`. */
  const InterviewQuestionBank: Bank :=
    map["frontend" := [FeReact1, FePerf1], "backend" := [BeSys1], "data_analyst" := [DaSql1]]

  /** The catalogue invariant: every entry is filed under its own role and
      is a valid question, and no id is used twice anywhere. */
  ghost predicate WellFormedBank(bank: Bank) {
    && (forall role, q :: role in bank && q in bank[role] ==> q.role == role && ValidQuestion(q))
    && (forall r1, r2, i, j ::
          r1 in bank && r2 in bank && 0 <= i < |bank[r1]| && 0 <= j < |bank[r2]|
          && bank[r1][i].id == bank[r2][j].id
          ==> r1 == r2 && i == j)
  }

  /** The repository's catalogue keeps the invariant. */
  lemma InterviewQuestionBankIsWellFormed()
    ensures WellFormedBank(InterviewQuestionBank)
  {
  }

  /** The list filed under `role`, or the empty list for a role the
      catalogue does not know (`interviewQuestions[roleId]?.… || []`). */
  function RoleQuestions(bank: Bank, role: string): seq<Question> {
    if role in bank then bank[role] else []
  }

  /** In a well-formed catalogue every question of a role is filed under
      that role, is valid, and occurs once. */
  lemma RoleQuestionsWellFormed(bank: Bank, role: string)
    requires WellFormedBank(bank)
    ensures forall q :: q in RoleQuestions(bank, role) ==> q.role == role && ValidQuestion(q)
    ensures NoDup(RoleQuestions(bank, role))
  {
    var qs := RoleQuestions(bank, role);
    if role in bank {
      forall i, j | 0 <= i < j < |qs|
        ensures qs[i] != qs[j]
      {
        assert bank[role][i].id != bank[role][j].id;
      }
    }
  }

  /** The filter of `getQuestionsForRole`: no difficulty keeps everything. */
  predicate MatchesDifficulty(q: Question, difficulty: Option<Difficulty>) {
    difficulty == None || q.difficulty == difficulty.value
  }

  /** `getQuestionsForRole(roleId, difficulty?)`: the role's questions of
      the given difficulty, in catalogue order; all of them when no
      difficulty is given; nothing, and no error, for an unknown role. */
  function GetQuestionsForRole(bank: Bank, role: string, difficulty: Option<Difficulty>): (r: seq<Question>)
    ensures role !in bank ==> r == []
    ensures difficulty == None ==> r == RoleQuestions(bank, role)
    ensures forall q :: q in r ==> q in RoleQuestions(bank, role) && MatchesDifficulty(q, difficulty)
    ensures forall q :: q in RoleQuestions(bank, role) && MatchesDifficulty(q, difficulty) ==> q in r
    ensures IsSubseq(r, RoleQuestions(bank, role))
    ensures WellFormedBank(bank) ==> NoDup(r) && forall q :: q in r ==> q.role == role
  {
    var qs := RoleQuestions(bank, role);
    var p := q => MatchesDifficulty(q, difficulty);
    FilteredRoleQuestions(bank, role, p);
    KeepAllWhenUnfiltered(qs, difficulty);
    FilterIsSubseq(qs, p);
    Filter(qs, p)
  }

  /** In a well-formed catalogue any filter of a role's list holds
      distinct questions of that role. */
  lemma FilteredRoleQuestions(bank: Bank, role: string, p: Question -> bool)
    ensures WellFormedBank(bank) ==>
      NoDup(Filter(RoleQuestions(bank, role), p))
      && forall q :: q in Filter(RoleQuestions(bank, role), p) ==> q.role == role
  {
    if WellFormedBank(bank) {
      RoleQuestionsWellFormed(bank, role);
      FilterNoDup(RoleQuestions(bank, role), p);
    }
  }

  lemma KeepAllWhenUnfiltered(qs: seq<Question>, difficulty: Option<Difficulty>)
    ensures difficulty == None ==> Filter(qs, q => MatchesDifficulty(q, difficulty)) == qs
  {
    if difficulty == None {
      FilterKeepsAll(qs, q => MatchesDifficulty(q, difficulty));
    }
  }

  /** `getQuestionsBySkill(roleId, skill)`: the role's questions whose skill
      is exactly `skill` (case-sensitive), of every difficulty, in catalogue
      order; nothing, and no error, for an unknown role. */
  function GetQuestionsBySkill(bank: Bank, role: string, skill: string): (r: seq<Question>)
    ensures role !in bank ==> r == []
    ensures forall q :: q in r ==> q in RoleQuestions(bank, role) && q.skill == skill
    ensures forall q :: q in RoleQuestions(bank, role) && q.skill == skill ==> q in r
    ensures IsSubseq(r, RoleQuestions(bank, role))
    ensures WellFormedBank(bank) ==> NoDup(r) && forall q :: q in r ==> q.role == role
  {
    var qs := RoleQuestions(bank, role);
    var p := (q: Question) => q.skill == skill;
    FilteredRoleQuestions(bank, role, p);
    FilterIsSubseq(qs, p);
    Filter(qs, p)
  }

  /** The frontend role has exactly one intermediate question. */
  lemma FrontendIntermediateIsReactHooks()
    ensures GetQuestionsForRole(InterviewQuestionBank, "frontend", Some(Intermediate)) == [FeReact1]
  {
    var p := q => MatchesDifficulty(q, Some(Intermediate));
    assert Filter([FePerf1], p) == [];
  }

  /** Skill names are compared exactly: "react" is not "React". */
  lemma SkillLookupIsCaseSensitive()
    ensures GetQuestionsBySkill(InterviewQuestionBank, "frontend", "React") == [FeReact1]
    ensures GetQuestionsBySkill(InterviewQuestionBank, "frontend", "react") == []
    ensures GetQuestionsBySkill(InterviewQuestionBank, "frontend", "Performance") == [FePerf1]
  {
    assert RoleQuestions(InterviewQuestionBank, "frontend") == [FeReact1, FePerf1];
    assert FeReact1.skill == "React" && FePerf1.skill == "Performance";
    var upper := (q: Question) => q.skill == "React";
    var lower := (q: Question) => q.skill == "react";
    var perf := (q: Question) => q.skill == "Performance";
    assert Filter([FeReact1, FePerf1], perf) == [FePerf1] by {
      assert Filter([FePerf1], perf) == [FePerf1];
    }
    assert Filter([FeReact1, FePerf1], upper) == [FeReact1] by {
      assert Filter([FePerf1], upper) == [];
    }
    assert Filter([FeReact1, FePerf1], lower) == [] by {
      assert Filter([FePerf1], lower) == [];
    }
  }

  const FeReact1: Question := Question(
    id := "fe-react-1",
    role := "frontend",
    skill := "React",
    kind := Technical,
    difficulty := Intermediate,
    question := FeReact1Question,
    code := Some(FeReact1Code),
    options := FeReact1Options,
    correctAnswer := 0,
    explanation := FeReact1Explanation,
    source := "Meta Technical Interview",
    timeLimit := 180,
    relatedSkills := ["JavaScript", "Async Programming", "Error Handling"])

  const FePerf1: Question := Question(
    id := "fe-perf-1",
    role := "frontend",
    skill := "Performance",
    kind := Scenario,
    difficulty := Advanced,
    question := FePerf1Question,
    code := Some(FePerf1Code),
    options := FePerf1Options,
    correctAnswer := 0,
    explanation := FePerf1Explanation,
    source := "Google Frontend Interview",
    timeLimit := 240,
    relatedSkills := ["React Performance", "Optimization", "useMemo"])

  const BeSys1: Question := Question(
    id := "be-sys-1",
    role := "backend",
    skill := "System Design",
    kind := Scenario,
    difficulty := Advanced,
    question := BeSys1Question,
    code := None,
    options := BeSys1Options,
    correctAnswer := 0,
    explanation := BeSys1Explanation,
    source := "Amazon System Design Interview",
    timeLimit := 600,
    relatedSkills := ["Distributed Systems", "Redis", "API Design"])

  const DaSql1: Question := Question(
    id := "da-sql-1",
    role := "data_analyst",
    skill := "SQL",
    kind := Technical,
    difficulty := Advanced,
    question := DaSql1Question,
    code := Some(DaSql1Code),
    options := DaSql1Options,
    correctAnswer := 0,
    explanation := DaSql1Explanation,
    source := "Snowflake Data Analytics Interview",
    timeLimit := 300,
    relatedSkills := ["Window Functions", "CTEs", "Data Analysis"])

  // The texts of the catalogue entries.

  // fe-react-1

  const FeReact1Question: string :=
    "Explain the concept of React Hooks and how they differ from class components. Provide an example of useState and useEffect implementation."

  const FeReact1Code: string :=
    "// Example implementation\nfunction UserProfile({ userId }) {\n  const [user, setUser] = useState(null);\n  const [loading, setLoading] = useState(true);\n\n  useEffect(() => {\n    // What should go here?\n  }, [userId]);\n\n  return (\n    // Component JSX\n  );\n}"

  const FeReact1Options: seq<string> :=
    [
      "async function fetchUser() {\n  setLoading(true);\n  try {\n    const data = await api.getUser(userId);\n    setUser(data);\n  } catch (error) {\n    console.error(error);\n  } finally {\n    setLoading(false);\n  }\n}\nfetchUser();",
      "setLoading(true);\napi.getUser(userId).then(data => {\n  setUser(data);\n  setLoading(false);\n});",
      "const data = api.getUser(userId);\nsetUser(data);\nsetLoading(false);",
      "useEffect(() => {\n  setLoading(true);\n  api.getUser(userId);\n  setLoading(false);\n}, []);"
    ]

  const FeReact1Explanation: string :=
    "The first option is the most correct implementation as it:\n1. Uses async/await for clean asynchronous code\n2. Properly handles errors\n3. Ensures loading state is always updated\n4. Follows React best practices for data fetching in useEffect"

  // fe-perf-1

  const FePerf1Question: string :=
    "You're working on a React application that's experiencing performance issues. Users report slow rendering and laggy interactions. Given this code snippet, identify the performance bottleneck and propose a solution."

  const FePerf1Code: string :=
    "function ProductList({ products, onProductSelect }) {\n  const sortedProducts = products\n    .slice()\n    .sort((a, b) => b.price - a.price);\n    \n  return (\n    <div>\n      {sortedProducts.map(product => (\n        <ProductCard\n          key={product.id}\n          product={product}\n          onSelect={() => onProductSelect(product)}\n        />\n      ))}\n    </div>\n  );\n}"

  const FePerf1Options: seq<string> :=
    [
      "Use useMemo to memoize the sorted products array",
      "Convert ProductList to a class component",
      "Remove the sorting operation entirely",
      "Add a loading state while sorting"
    ]

  const FePerf1Explanation: string :=
    "The performance issue stems from unnecessarily re-sorting the products array on every render. Using useMemo will cache the sorted array and only recompute when the products array changes:\n\n```jsx\nconst sortedProducts = useMemo(\n  () => products.slice().sort((a, b) => b.price - a.price),\n  [products]\n);\n```\n\nThis optimization prevents expensive calculations on every render."

  // be-sys-1

  const BeSys1Question: string :=
    "Design a rate limiting system for a REST API that handles 10,000 requests per second. Consider the following requirements:\n\n- Limit requests per user/IP\n- Handle distributed deployment\n- Prevent abuse while allowing burst traffic\n\nWhich implementation would you choose and why?"

  const BeSys1Options: seq<string> :=
    [
      "Token Bucket algorithm with Redis for distributed rate limiting",
      "Fixed Window counter with local memory cache",
      "Leaky Bucket algorithm with database storage",
      "Sliding Window with in-memory counters"
    ]

  const BeSys1Explanation: string :=
    "Token Bucket with Redis is ideal because:\n1. Redis provides atomic operations for distributed systems\n2. Token Bucket allows burst traffic while maintaining overall rate\n3. Low latency compared to database solutions\n4. Scales horizontally with multiple API servers\n\nImplementation example:\n```javascript\nclass RateLimiter {\n  constructor(redis, bucketSize, refillRate) {\n    this.redis = redis;\n    this.bucketSize = bucketSize;\n    this.refillRate = refillRate;\n  }\n\n  async tryAcquire(userId) {\n    const key = `ratelimit:${userId}`;\n    const now = Date.now();\n    \n    const [tokens, lastRefill] = await this.redis.hmget(key, 'tokens', 'lastRefill');\n    const newTokens = Math.min(\n      this.bucketSize,\n      tokens + (now - lastRefill) * this.refillRate\n    );\n    \n    if (newTokens >= 1) {\n      await this.redis.hmset(key, {\n        tokens: newTokens - 1,\n        lastRefill: now\n      });\n      return true;\n    }\n    return false;\n  }\n}\n```"

  // da-sql-1

  const DaSql1Question: string :=
    "You have a large e-commerce database and need to analyze customer purchasing patterns. Write a SQL query to find the top 5 customers who have made the most purchases in each product category in the last 3 months, including their total spend and average order value."

  const DaSql1Code: string :=
    "-- Tables:\n-- customers (id, name, email)\n-- orders (id, customer_id, order_date, total_amount)\n-- order_items (order_id, product_id, quantity, price)\n-- products (id, name, category)"

  const DaSql1Options: seq<string> :=
    [
      "WITH RankedCustomers AS (\n  SELECT \n    c.name,\n    p.category,\n    COUNT(DISTINCT o.id) as total_orders,\n    SUM(o.total_amount) as total_spend,\n    AVG(o.total_amount) as avg_order_value,\n    RANK() OVER (PARTITION BY p.category ORDER BY COUNT(DISTINCT o.id) DESC) as rank\n  FROM customers c\n  JOIN orders o ON c.id = o.customer_id\n  JOIN order_items oi ON o.id = oi.order_id\n  JOIN products p ON oi.product_id = p.id\n  WHERE o.order_date >= DATEADD(month, -3, GETDATE())\n  GROUP BY c.name, p.category\n)\nSELECT *\nFROM RankedCustomers\nWHERE rank <= 5\nORDER BY category, rank;",
      "SELECT \n  c.name,\n  p.category,\n  COUNT(o.id) as total_orders,\n  SUM(o.total_amount) as total_spend\nFROM customers c\nJOIN orders o ON c.id = o.customer_id\nJOIN order_items oi ON o.id = oi.order_id\nJOIN products p ON oi.product_id = p.id\nGROUP BY c.name, p.category\nORDER BY total_orders DESC\nLIMIT 5;",
      "SELECT TOP 5\n  c.name,\n  p.category,\n  COUNT(o.id) as total_orders\nFROM customers c\nJOIN orders o ON c.id = o.customer_id\nJOIN order_items oi ON o.id = oi.order_id\nJOIN products p ON oi.product_id = p.id\nGROUP BY c.name, p.category\nORDER BY total_orders DESC;",
      "SELECT \n  c.name,\n  p.category,\n  COUNT(o.id) as total_orders\nFROM customers c, orders o, order_items oi, products p\nWHERE c.id = o.customer_id\nAND o.id = oi.order_id\nAND oi.product_id = p.id\nGROUP BY c.name, p.category;"
    ]

  const DaSql1Explanation: string :=
    "The correct solution uses:\n1. Window functions (RANK) to rank customers within each category\n2. Common Table Expression (CTE) for better readability\n3. Proper date filtering for last 3 months\n4. Calculates both total spend and average order value\n5. Joins tables correctly\n6. Groups and filters appropriately"
}
